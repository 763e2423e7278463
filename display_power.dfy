/** The display's activity and power state machine: the idle timeout that
    turns the backlight off, the touch read that wakes it (and reports no press), the
    timeout dropdown and the brightness slider. The millisecond clock is a
    parameter `now`; the backlight level each handler writes is returned. */
module DisplayPower {
  import opened Base

  const TWO_32: int := 0x1_0000_0000

  /** Milliseconds from `since` to `now` on the 32-bit wrapping clock. */
  function Elapsed(now: uint32, since: uint32): (d: uint32)
    ensures since <= now ==> d == now - since
    ensures now < since ==> d == now + TWO_32 - since
  {
    (now - since) % TWO_32
  }

  /** However far the clock has wrapped, the elapsed time after d ms is d. */
  lemma ElapsedAcrossWrap(since: uint32, d: uint32)
    ensures Elapsed((since + d) % TWO_32, since) == d
  {
    if since + d >= TWO_32 {
      assert (since + d) % TWO_32 == since + d - TWO_32;
    }
  }

  /** A slider position in percent. */
  type Percent = p: int | 0 <= p <= 100

  /** The four globals: timeout, last activity, asleep, and the duty restored
      on wake. */
  datatype PowerState = PowerState(
    timeoutMs: uint32, lastActivityMs: uint32, sleeping: bool, duty: uint8)

  /** The pointer state reported to the widget toolkit. */
  datatype PointerReport = Released | Pressed(x: uint16, y: uint16)

  /** A handler's effect: the new state and the backlight level it wrote, if any. */
  datatype Step = Step(next: PowerState, backlight: Option<uint8>)

  datatype TouchStep = TouchStep(next: PowerState, report: PointerReport, backlight: Option<uint8>)

  /** The state at boot, before any widget is attached: awake, full duty,
      no timeout, last activity now. */
  function BootState(now: uint32): (s: PowerState)
    ensures !s.sleeping && s.duty == 255 && s.lastActivityMs == now && s.timeoutMs == 0
  {
    PowerState(0, now, false, 255)
  }

  /** The idle check run on every pass of the main loop. */
  function IdleCheck(s: PowerState, now: uint32): (o: Step)
    ensures o.next.sleeping <==>
      s.sleeping || (s.timeoutMs != 0 && Elapsed(now, s.lastActivityMs) >= s.timeoutMs)
    ensures o.backlight == if !s.sleeping && o.next.sleeping then Some(0) else None
    ensures o.next.(sleeping := s.sleeping) == s
  {
    if s.sleeping || s.timeoutMs == 0 then Step(s, None)
    else if Elapsed(now, s.lastActivityMs) >= s.timeoutMs then Step(s.(sleeping := true), Some(0))
    else Step(s, None)
  }

  /** One read of the touch controller. */
  function Touch(s: PowerState, touched: bool, x: uint16, y: uint16, now: uint32): (o: TouchStep)
    ensures o.report.Pressed? <==> touched && !s.sleeping
    ensures o.report.Pressed? ==> o.report == Pressed(x, y)
    ensures touched ==> !o.next.sleeping && o.next.lastActivityMs == now
    ensures !touched ==> o.next == s
    ensures o.next.duty == s.duty && o.next.timeoutMs == s.timeoutMs
    ensures o.backlight == if s.sleeping && touched then Some(s.duty) else None
  {
    if s.sleeping && touched then
      TouchStep(s.(sleeping := false, lastActivityMs := now), Released, Some(s.duty))
    else if !touched then TouchStep(s, Released, None)
    else TouchStep(s.(lastActivityMs := now), Pressed(x, y), None)
  }

  /** The timeout for a dropdown index: Never, 30 s, 1 min, 2 min; any other
      index means Never. */
  function TimeoutForSelection(sel: int): (ms: uint32)
    ensures ms == 0 <==> sel != 1 && sel != 2 && sel != 3
    ensures sel == 1 ==> ms == 30000
    ensures sel == 2 ==> ms == 60000
    ensures sel == 3 ==> ms == 120000
  {
    match sel
    case 0 => 0
    case 1 => 30000
    case 2 => 60000
    case 3 => 120000
    case _ => 0
  }

  function SelectTimeout(s: PowerState, sel: int, now: uint32): (r: PowerState)
    ensures r.timeoutMs == TimeoutForSelection(sel) && r.lastActivityMs == now
    ensures r.sleeping == s.sleeping && r.duty == s.duty
  {
    s.(timeoutMs := TimeoutForSelection(sel), lastActivityMs := now)
  }

  function ClampPercent(v: int): (p: Percent)
    ensures 0 <= v <= 100 ==> p == v
    ensures v < 0 ==> p == 0
    ensures v > 100 ==> p == 100
  {
    if v < 0 then 0 else if v > 100 then 100 else v
  }

  /** The brightness slider moved to `value`. `dutyOf` is the mapping from the
      clamped percentage to the backlight duty. */
  function ApplyBrightness(s: PowerState, value: int, now: uint32, dutyOf: Percent -> uint8): (o: Step)
    ensures o.backlight == Some(o.next.duty) && o.next.duty == dutyOf(ClampPercent(value))
    ensures o.next.lastActivityMs == now
    ensures o.next.sleeping == s.sleeping && o.next.timeoutMs == s.timeoutMs
  {
    var duty := dutyOf(ClampPercent(value));
    Step(s.(duty := duty, lastActivityMs := now), Some(duty))
  }

  /** The state at the end of setup: boot, then the brightness slider set to
      100 when it exists, then the timeout from the dropdown's current
      selection when it exists. */
  function AfterSetup(now: uint32, dutyOf: Percent -> uint8, slider: bool, timeoutSel: Option<int>): (s: PowerState)
    ensures !s.sleeping && s.lastActivityMs == now
    ensures s.duty == if slider then dutyOf(100) else 255
    ensures s.timeoutMs == if timeoutSel.Some? then TimeoutForSelection(timeoutSel.value) else 0
  {
    var booted := BootState(now);
    var lit := if slider then ApplyBrightness(booted, 100, now, dutyOf).next else booted;
    if timeoutSel.Some? then SelectTimeout(lit, timeoutSel.value, now) else lit
  }

  // ------------------------------------------------------------ many ticks

  /** The state after the main loop runs the idle check at each time in
      `nows`. Idle checks change nothing but the sleep flag: timeout, last
      activity and the duty chosen before sleep all survive. */
  function RunIdle(s: PowerState, nows: seq<uint32>): (r: PowerState)
    ensures r.(sleeping := s.sleeping) == s
    decreases |nows|
  {
    if nows == [] then s else RunIdle(IdleCheck(s, nows[0]).next, nows[1..])
  }

  /** With the timeout at Never, the display stays awake however long it idles. */
  lemma {:induction false} NeverSleepsWithoutTimeout(s: PowerState, nows: seq<uint32>)
    requires s.timeoutMs == 0 && !s.sleeping
    ensures RunIdle(s, nows) == s
    decreases |nows|
  {
    if nows != [] {
      NeverSleepsWithoutTimeout(IdleCheck(s, nows[0]).next, nows[1..]);
    }
  }

  /** Only a touch wakes the display: idle checks leave it asleep. */
  lemma {:induction false} SleepIsSticky(s: PowerState, nows: seq<uint32>)
    requires s.sleeping
    ensures RunIdle(s, nows) == s
    decreases |nows|
  {
    if nows != [] {
      SleepIsSticky(IdleCheck(s, nows[0]).next, nows[1..]);
    }
  }

  /** The display is asleep after a run of idle checks exactly when it was
      already, or a timeout is set and some check saw at least that much
      time since the last activity. */
  lemma {:induction false} RunIdleSleepsIff(s: PowerState, nows: seq<uint32>)
    ensures RunIdle(s, nows).sleeping <==>
      s.sleeping || (s.timeoutMs != 0 &&
        exists i :: 0 <= i < |nows| && Elapsed(nows[i], s.lastActivityMs) >= s.timeoutMs)
    decreases |nows|
  {
    if nows != [] {
      var s' := IdleCheck(s, nows[0]).next;
      RunIdleSleepsIff(s', nows[1..]);
      if s.timeoutMs != 0 {
        if exists i :: 0 <= i < |nows| && Elapsed(nows[i], s.lastActivityMs) >= s.timeoutMs {
          var i :| 0 <= i < |nows| && Elapsed(nows[i], s.lastActivityMs) >= s.timeoutMs;
          if i > 0 {
            assert nows[1..][i - 1] == nows[i];
          }
        }
        if exists j :: 0 <= j < |nows[1..]| && Elapsed(nows[1..][j], s'.lastActivityMs) >= s'.timeoutMs {
          var j :| 0 <= j < |nows[1..]| && Elapsed(nows[1..][j], s'.lastActivityMs) >= s'.timeoutMs;
          assert nows[1..][j] == nows[j + 1];
        }
      }
    }
  }

  /** The first touch read after any amount of idling reports Released if
      the display went to sleep, restores the duty chosen before sleeping and
      counts as activity. */
  lemma WakeRestoresBrightness(s: PowerState, nows: seq<uint32>, x: uint16, y: uint16, now: uint32)
    ensures var asleep := RunIdle(s, nows);
      var o := Touch(asleep, true, x, y, now);
      && !o.next.sleeping && o.next.lastActivityMs == now && o.next.duty == s.duty
      && (asleep.sleeping ==> o.report == Released && o.backlight == Some(s.duty))
      && (!asleep.sleeping ==> o.report == Pressed(x, y) && o.backlight == None)
  {
  }

  /** Only the one read that wakes the display is hidden: nothing records
      that the finger went down while asleep, so if it is still down at the
      next read, that read reports a press at the touch point. */
  lemma HeldWakeTouchPresses(s: PowerState, x: uint16, y: uint16, t1: uint32, t2: uint32)
    requires s.sleeping
    ensures var o1 := Touch(s, true, x, y, t1);
      && o1.report == Released
      && Touch(o1.next, true, x, y, t2).report == Pressed(x, y)
      && Touch(o1.next, true, x, y, t2).next.lastActivityMs == t2
  {
  }

  /** With a 30 s timeout and no activity since t0 the display is still awake
      29999 ms later and asleep 30000 ms later, also across a clock wrap. */
  lemma ThirtySecondBoundary(s: PowerState)
    requires s.timeoutMs == 30000 && !s.sleeping
    ensures !IdleCheck(s, (s.lastActivityMs + 29999) % TWO_32).next.sleeping
    ensures IdleCheck(s, (s.lastActivityMs + 30000) % TWO_32).next.sleeping
  {
    ElapsedAcrossWrap(s.lastActivityMs, 29999);
    ElapsedAcrossWrap(s.lastActivityMs, 30000);
  }

  // ------------------------------------------------------------ the globals

  /** The module's globals and the handlers that update them. */
  class ActivityMonitor {
    var inactivityTimeoutMs: uint32
    var lastActivityMs: uint32
    var displaySleep: bool
    var currentBrightnessDuty: uint8
    /** The slider's percentage-to-duty mapping. */
    const dutyOf: Percent -> uint8

    function State(): PowerState
      reads this
    {
      PowerState(inactivityTimeoutMs, lastActivityMs, displaySleep, currentBrightnessDuty)
    }

    /** Static initialisation followed by the first lines of setup: full
        brightness and the boot time as last activity. */
    constructor Boot(now: uint32, dutyOf: Percent -> uint8)
      ensures State() == BootState(now) && this.dutyOf == dutyOf
    {
      inactivityTimeoutMs := 0;
      lastActivityMs := 0;
      displaySleep := false;
      currentBrightnessDuty := 255;
      this.dutyOf := dutyOf;
      new;
      currentBrightnessDuty := 255;
      lastActivityMs := now;
    }

    method ApplyBrightnessFromSlider(value: int, now: uint32) returns (backlight: uint8)
      modifies this
      ensures var o := ApplyBrightness(old(State()), value, now, dutyOf);
        State() == o.next && Some(backlight) == o.backlight
    {
      var v := value;
      if v < 0 { v := 0; }
      if v > 100 { v := 100; }
      var duty := dutyOf(v);
      currentBrightnessDuty := duty;
      backlight := duty;
      lastActivityMs := now;
    }

    method TouchRead(touched: bool, touchX: uint16, touchY: uint16, now: uint32)
      returns (report: PointerReport, backlight: Option<uint8>)
      modifies this
      ensures var o := Touch(old(State()), touched, touchX, touchY, now);
        State() == o.next && report == o.report && backlight == o.backlight
    {
      if displaySleep && touched {
        backlight := Some(currentBrightnessDuty);
        displaySleep := false;
        lastActivityMs := now;
        report := Released;
        return;
      }
      backlight := None;
      if !touched {
        report := Released;
      } else {
        report := Pressed(touchX, touchY);
        lastActivityMs := now;
      }
    }

    method TimeoutSelected(sel: int, now: uint32)
      modifies this
      ensures State() == SelectTimeout(old(State()), sel, now)
    {
      if sel == 0 {
        inactivityTimeoutMs := 0;
      } else if sel == 1 {
        inactivityTimeoutMs := 30000;
      } else if sel == 2 {
        inactivityTimeoutMs := 60000;
      } else if sel == 3 {
        inactivityTimeoutMs := 120000;
      } else {
        inactivityTimeoutMs := 0;
      }
      lastActivityMs := now;
    }

    method HandleInactivity(now: uint32) returns (backlight: Option<uint8>)
      modifies this
      ensures var o := IdleCheck(old(State()), now);
        State() == o.next && backlight == o.backlight
    {
      backlight := None;
      if displaySleep || inactivityTimeoutMs == 0 {
        return;
      }
      if Elapsed(now, lastActivityMs) >= inactivityTimeoutMs {
        backlight := Some(0);
        displaySleep := true;
      }
    }
  }

  /** setup(): boot, then attach the brightness slider (set to 100 and applied)
      and the timeout dropdown (its current selection applied) where the
      screen has them. Returns the backlight levels written, in order. */
  method Setup(now: uint32, dutyOf: Percent -> uint8, slider: bool, timeoutSel: Option<int>)
    returns (m: ActivityMonitor, backlight: seq<uint8>)
    ensures fresh(m) && m.dutyOf == dutyOf
    ensures m.State() == AfterSetup(now, dutyOf, slider, timeoutSel)
    ensures backlight == if slider then [255, dutyOf(100)] else [255]
  {
    m := new ActivityMonitor.Boot(now, dutyOf);
    backlight := [255];
    if slider {
      var b := m.ApplyBrightnessFromSlider(100, now);
      backlight := backlight + [b];
    }
    if timeoutSel.Some? {
      m.TimeoutSelected(timeoutSel.value, now);
    }
  }
}
