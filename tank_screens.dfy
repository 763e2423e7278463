/** What each screen of the display shows for the tank records: the global
    state and its initialisation, and, for every label, slider, arc and
    dropdown, the text or value chosen from `paired` and the "unset" sentinels.
    Each screen is a record of what its widgets receive; a widget the screen
    does not have simply takes nothing from it. */
module TankScreens {
  import opened Base
  import opened Decimal
  import opened TankRecords

  // ---------------------------------------------------------------- globals

  /** A tank record with every byte zero, as static storage starts out
      (0.0 is a number, not the NaN "unset"). */
  function ZeroTank(): TankState {
    TankState(false, "", 0, 0, Some(0.0), 0, false, false, 0, 0, "", 0, 0, 0,
              false, false, false, "", "", "", "", "", 0, 0, "")
  }

  function ZeroState(): CydState {
    CydState(ZeroTank(), ZeroTank(), "", false)
  }

  /** What the initialisation leaves in a tank record, stated field by field:
      unpaired, status OK, every sentinel field unset and every string empty. */
  predicate IsDefaultTank(t: TankState, name: string, role: TankRole) {
    && !t.paired && t.name == name && t.role == role.Code()
    && t.levelPercent == LEVEL_INVALID && t.tempC == None && t.status == Ok.Code()
    && !t.leak && !t.freezeEnabled && t.freezeSetting == SETTING_INVALID
    && t.faultCode == FAULT_INVALID && t.faultDescription == ""
    && t.stopLevelPercent == SETTING_INVALID
    && t.fullVoltageMv == VOLT_INVALID && t.emptyVoltageMv == VOLT_INVALID
    && !t.safetyOverrideEnabled && !t.valveOverrideEnabled && !t.restartRequested
    && t.diagIp == "" && t.diagId == "" && t.diagMac == "" && t.diagStatus == ""
    && t.diagRole == "" && t.diagUptimeS == 0 && t.diagSignalDbm == 0 && t.diagVersion == ""
  }

  predicate IsDefaultState(s: CydState) {
    && IsDefaultTank(s.freshTank, "Fresh Tank", Fresh)
    && IsDefaultTank(s.wasteTank, "Waste Tank", Waste)
    && s.firmwareVersion == "V 0.0.1"
    && !s.setupComplete
  }

  /** The module's two globals: the shared tank state and the units flag. */
  class CydGlobals {
    var state: CydState
    var unitsMetric: bool

    /** Static initialisation: zeroed state, metric units. */
    constructor ()
      ensures state == ZeroState() && unitsMetric
    {
      state := ZeroState();
      unitsMetric := true;
    }

    /** Clear the state, then set each tank's fields to their defaults. */
    method InitDefaults()
      modifies this
      ensures IsDefaultState(state) && WellFormed(state)
      ensures unitsMetric == old(unitsMetric)
    {
      state := ZeroState();
      state := state.(freshTank := state.freshTank.(
        name := "Fresh Tank", role := Fresh.Code(), levelPercent := LEVEL_INVALID,
        paired := false, tempC := None, status := Ok.Code(), leak := false,
        freezeEnabled := false, freezeSetting := SETTING_INVALID,
        faultCode := FAULT_INVALID, faultDescription := "",
        stopLevelPercent := SETTING_INVALID,
        fullVoltageMv := VOLT_INVALID, emptyVoltageMv := VOLT_INVALID,
        safetyOverrideEnabled := false, valveOverrideEnabled := false,
        restartRequested := false, diagIp := "", diagId := "", diagMac := "",
        diagStatus := "", diagRole := "", diagUptimeS := 0, diagSignalDbm := 0,
        diagVersion := ""));
      state := state.(wasteTank := state.wasteTank.(
        name := "Waste Tank", role := Waste.Code(), levelPercent := LEVEL_INVALID,
        paired := false, tempC := None, status := Ok.Code(), leak := false,
        freezeEnabled := false, freezeSetting := SETTING_INVALID,
        faultCode := FAULT_INVALID, faultDescription := "",
        stopLevelPercent := SETTING_INVALID,
        fullVoltageMv := VOLT_INVALID, emptyVoltageMv := VOLT_INVALID,
        safetyOverrideEnabled := false, valveOverrideEnabled := false,
        restartRequested := false, diagIp := "", diagId := "", diagMac := "",
        diagStatus := "", diagRole := "", diagUptimeS := 0, diagSignalDbm := 0,
        diagVersion := ""));
      state := state.(firmwareVersion := "V 0.0.1", setupComplete := false);
    }

    method SetUnitsMetric(metric: bool)
      modifies this
      ensures UnitsMetric() == metric
      ensures state == old(state)
    {
      unitsMetric := metric;
    }

    function UnitsMetric(): bool
      reads this
    {
      unitsMetric
    }
  }

  // ---------------------------------------------------------------- labels

  /** A label that reads "<n>%". */
  predicate IsPercentOf(r: string, p: nat) {
    |r| >= 2 && r[|r| - 1] == '%' && Canonical(r[..|r| - 1]) && Value(r[..|r| - 1]) == p
  }

  function PercentText(p: nat): (r: string)
    ensures IsPercentOf(r, p)
  {
    var r := Digits(p) + "%";
    assert r[..|r| - 1] == Digits(p);
    r
  }

  /** The status word of a raw tank_status_t value. */
  function StatusText(code: int): (r: string)
    ensures r == "Fill" <==> code == Fill.Code()
    ensures r == "Drain" <==> code == Drain.Code()
    ensures r == "Fault" <==> code == Fault.Code()
    ensures r == "OK" <==> code != Fill.Code() && code != Drain.Code() && code != Fault.Code()
  {
    match StatusOfCode(code)
    case Some(Fill) => "Fill"
    case Some(Drain) => "Drain"
    case Some(Fault) => "Fault"
    case _ => "OK"
  }

  predicate LevelKnown(t: TankState) {
    t.paired && t.levelPercent != LEVEL_INVALID
  }

  /** The value given to a level arc or bar. */
  function LevelGauge(t: TankState): (v: uint8)
    ensures LevelKnown(t) ==> v == t.levelPercent
    ensures !LevelKnown(t) ==> v == 0
  {
    if LevelKnown(t) then t.levelPercent else 0
  }

  function LevelLabel(t: TankState): (r: string)
    ensures r == "--" <==> !LevelKnown(t)
    ensures LevelKnown(t) ==> IsPercentOf(r, t.levelPercent)
  {
    if LevelKnown(t) then PercentText(t.levelPercent) else "--"
  }

  /** A temperature label: dashes, or a reading in the selected unit. The
      reading is kept as a number; its one-decimal text is not modelled. */
  datatype TempReading = TempDashes | TempShown(value: real, unit: char)

  function CelsiusOf(r: TempReading): real
    requires r.TempShown?
  {
    if r.unit == 'C' then r.value else (r.value - 32.0) * 5.0 / 9.0
  }

  function TempLabel(t: TankState, metric: bool): (r: TempReading)
    ensures r.TempShown? <==> t.paired && t.tempC.Some?
    ensures r.TempShown? ==> r.unit == (if metric then 'C' else 'F') && CelsiusOf(r) == t.tempC.value
  {
    if t.paired && t.tempC.Some? then
      var c := t.tempC.value;
      if metric then TempShown(c, 'C') else TempShown(c * 9.0 / 5.0 + 32.0, 'F')
    else TempDashes
  }

  function StatusLabel(t: TankState): (r: string)
    ensures r == "--" <==> !t.paired
    ensures t.paired ==> r == StatusText(t.status)
  {
    if !t.paired then "--" else StatusText(t.status)
  }

  function LeakLabel(t: TankState): (r: string)
    ensures r == "--" <==> !t.paired
    ensures r == "Leak" <==> t.paired && t.leak
    ensures r == "No Leak" <==> t.paired && !t.leak
  {
    if !t.paired then "--" else if t.leak then "Leak" else "No Leak"
  }

  function FreezeLabel(t: TankState): (r: string)
    ensures r == "--" <==> !t.paired
    ensures r == "Freeze On" <==> t.paired && t.freezeEnabled
    ensures r == "Freeze Off" <==> t.paired && !t.freezeEnabled
  {
    if !t.paired then "--" else if t.freezeEnabled then "Freeze On" else "Freeze Off"
  }

  predicate FaultCodeKnown(t: TankState) {
    t.paired && t.faultCode != FAULT_INVALID
  }

  /** The fault button's caption on a tank screen. */
  function FaultButtonLabel(t: TankState): (r: string)
    ensures r == "Fault --" <==> !FaultCodeKnown(t)
    ensures FaultCodeKnown(t) ==>
      |r| > 6 && r[..6] == "Fault " && Canonical(r[6..]) && Value(r[6..]) == t.faultCode
  {
    if !FaultCodeKnown(t) then "Fault --"
    else
      var r := "Fault " + Digits(t.faultCode);
      assert r[6..] == Digits(t.faultCode);
      r
  }

  /** The fault code on a faults screen. */
  function FaultCodeLabel(t: TankState): (r: string)
    ensures r == "--" <==> !FaultCodeKnown(t)
    ensures FaultCodeKnown(t) ==> Canonical(r) && Value(r) == t.faultCode
  {
    if !FaultCodeKnown(t) then "--" else Digits(t.faultCode)
  }

  /** The fault description on a faults screen, by three cases in order. */
  function FaultDescription(t: TankState): (r: string)
    ensures !t.paired ==> r == "No Controller Connected"
    ensures t.paired && (t.faultCode == FAULT_INVALID || t.status != Fault.Code()) ==> r == "No Active Fault"
    ensures t.paired && t.faultCode != FAULT_INVALID && t.status == Fault.Code() ==> r == t.faultDescription
  {
    if !t.paired then "No Controller Connected"
    else if t.faultCode == FAULT_INVALID || t.status != Fault.Code() then "No Active Fault"
    else t.faultDescription
  }

  /** The stop-level slider: 0 when unset. */
  function StopSlider(p: uint8): (v: uint8)
    ensures p == SETTING_INVALID ==> v == 0
    ensures p != SETTING_INVALID ==> v == p
  {
    if p == SETTING_INVALID then 0 else p
  }

  /** The percentage beside the stop-level slider. */
  function StopPercentText(p: uint8): (r: string)
    ensures r == "--" <==> p == SETTING_INVALID
    ensures p != SETTING_INVALID ==> IsPercentOf(r, p)
  {
    if p == SETTING_INVALID then "--" else PercentText(p)
  }

  /** The stop-level label on a settings screen, which also hides the value of
      an unpaired tank. */
  function StopLevelLabel(t: TankState): (r: string)
    ensures r == "--" <==> t.stopLevelPercent == SETTING_INVALID || !t.paired
    ensures t.paired && t.stopLevelPercent != SETTING_INVALID ==> IsPercentOf(r, t.stopLevelPercent)
  {
    if t.stopLevelPercent == SETTING_INVALID || !t.paired then "--" else PercentText(t.stopLevelPercent)
  }

  /** A calibration voltage label: dashes, or the millivolts it shows (its
      two-decimal volt text is not modelled). */
  datatype VoltReading = VoltDashes | VoltShown(millivolts: uint16)

  function VoltageLabel(mv: uint16): (r: VoltReading)
    ensures r.VoltDashes? <==> mv == VOLT_INVALID
    ensures r.VoltShown? ==> r.millivolts == mv
  {
    if mv == VOLT_INVALID then VoltDashes else VoltShown(mv)
  }

  /** A whole-degree Celsius value converted to Fahrenheit and rounded to the
      nearest integer, halves away from zero, for values at or above 0 F. */
  function FahrenheitRounded(c: int): (f: int)
    requires 9 * c + 160 >= 0
    ensures 10 * f - 5 <= 18 * c + 320 < 10 * f + 5
  {
    (18 * c + 325) / 10
  }

  /** The freeze-protection dropdown's options: Off, then 1..5 degrees in the
      selected unit. */
  function FreezeOptionList(metric: bool): (r: seq<string>)
    ensures |r| == 6 && r[0] == "Off"
    ensures forall c :: 1 <= c < 6 ==>
      Canonical(r[c]) && Value(r[c]) == if metric then c else FahrenheitRounded(c)
  {
    if metric then ["Off", Digits(1), Digits(2), Digits(3), Digits(4), Digits(5)]
    else ["Off", Digits(FahrenheitRounded(1)), Digits(FahrenheitRounded(2)),
          Digits(FahrenheitRounded(3)), Digits(FahrenheitRounded(4)), Digits(FahrenheitRounded(5))]
  }

  /** Options joined into one string, one per line, as the dropdown takes them. */
  function JoinLines(items: seq<string>): string {
    if |items| == 0 then ""
    else if |items| == 1 then items[0]
    else items[0] + "\n" + JoinLines(items[1..])
  }

  /** How the dropdown reads an option string back: cut at every newline. */
  function SplitLines(s: string): (r: seq<string>)
    ensures |r| >= 1
    decreases |s|
  {
    if s == [] then [""]
    else
      var rest := SplitLines(s[1..]);
      if s[0] == '\n' then [""] + rest else [[s[0]] + rest[0]] + rest[1..]
  }

  /** A line without a newline stays whole: it becomes the start of the first piece. */
  lemma {:induction false} SplitPrefix(a: string, b: string)
    requires '\n' !in a
    ensures SplitLines(a + b) == [a + SplitLines(b)[0]] + SplitLines(b)[1..]
    decreases |a|
  {
    if a == [] {
      assert a + b == b && a + SplitLines(b)[0] == SplitLines(b)[0];
      assert [SplitLines(b)[0]] + SplitLines(b)[1..] == SplitLines(b);
    } else {
      assert (a + b)[1..] == a[1..] + b;
      SplitPrefix(a[1..], b);
      assert [a[0]] + (a[1..] + SplitLines(b)[0]) == a + SplitLines(b)[0];
    }
  }

  /** Joining options that contain no newline and cutting the result at the
      newlines gives back exactly those options. */
  lemma {:induction false} SplitJoin(items: seq<string>)
    requires |items| >= 1 && forall i :: 0 <= i < |items| ==> '\n' !in items[i]
    ensures SplitLines(JoinLines(items)) == items
    decreases |items|
  {
    if |items| == 1 {
      SplitPrefix(items[0], "");
      assert items[0] + "" == items[0];
    } else {
      var rest := JoinLines(items[1..]);
      SplitJoin(items[1..]);
      assert items[0] + "\n" + rest == items[0] + ("\n" + rest);
      SplitPrefix(items[0], "\n" + rest);
      assert ("\n" + rest)[1..] == rest;
      assert SplitLines("\n" + rest) == [""] + items[1..];
      assert items[0] + "" == items[0];
      assert [items[0]] + items[1..] == items;
    }
  }

  /** The option string handed to the dropdown. */
  function FreezeOptionsText(metric: bool): string {
    JoinLines(FreezeOptionList(metric))
  }

  /** The dropdown finds exactly the six options in its option string. */
  lemma OptionsTextSplits(metric: bool)
    ensures SplitLines(FreezeOptionsText(metric)) == FreezeOptionList(metric)
  {
    var items := FreezeOptionList(metric);
    forall i | 0 <= i < |items|
      ensures '\n' !in items[i]
    {
      if i > 0 {
        assert forall j :: 0 <= j < |items[i]| ==> IsDigit(items[i][j]);
      }
    }
    SplitJoin(items);
  }

  lemma JoinCons(x: string, rest: seq<string>)
    requires |rest| >= 1
    ensures JoinLines([x] + rest) == x + "\n" + JoinLines(rest)
  {
    assert ([x] + rest)[1..] == rest;
  }

  lemma JoinSix(a: string, b: string, c: string, d: string, e: string, f: string)
    ensures JoinLines([a, b, c, d, e, f]) == a + "\n" + b + "\n" + c + "\n" + d + "\n" + e + "\n" + f
  {
    assert JoinLines([f]) == f;
    JoinCons(e, [f]);
    assert [e] + [f] == [e, f];
    JoinCons(d, [e, f]);
    assert [d] + [e, f] == [d, e, f];
    JoinCons(c, [d, e, f]);
    assert [c] + [d, e, f] == [c, d, e, f];
    JoinCons(b, [c, d, e, f]);
    assert [b] + [c, d, e, f] == [b, c, d, e, f];
    JoinCons(a, [b, c, d, e, f]);
    assert [a] + [b, c, d, e, f] == [a, b, c, d, e, f];
  }

  lemma MetricOptionsText()
    ensures FreezeOptionsText(true) == "Off\n1\n2\n3\n4\n5"
  {
    assert Digits(1) == "1" && Digits(2) == "2" && Digits(3) == "3";
    assert Digits(4) == "4" && Digits(5) == "5";
    JoinSix("Off", "1", "2", "3", "4", "5");
  }

  lemma ImperialOptionList()
    ensures FreezeOptionList(false) == ["Off", "34", "36", "37", "39", "41"]
  {
    assert FahrenheitRounded(1) == 34 && FahrenheitRounded(2) == 36 && FahrenheitRounded(3) == 37;
    assert FahrenheitRounded(4) == 39 && FahrenheitRounded(5) == 41;
    assert Digits(3) == "3" && Digits(4) == "4";
    assert Digits(34) == "34" by { assert DigitChar(4) == '4'; }
    assert Digits(36) == "36" by { assert DigitChar(6) == '6'; }
    assert Digits(37) == "37" by { assert DigitChar(7) == '7'; }
    assert Digits(39) == "39" by { assert DigitChar(9) == '9'; }
    assert Digits(41) == "41" by { assert DigitChar(1) == '1'; }
  }

  lemma ImperialOptionsText()
    ensures FreezeOptionsText(false) == "Off\n34\n36\n37\n39\n41"
  {
    ImperialOptionList();
    JoinSix("Off", "34", "36", "37", "39", "41");
  }

  /** The dropdown's selected index: the setting when it names an option, Off
      otherwise (including the unset 0xFF). */
  function FreezeSelection(setting: uint8): (sel: nat)
    ensures sel < |FreezeOptionList(true)| && sel < |FreezeOptionList(false)|
    ensures setting <= 5 ==> sel == setting
    ensures setting > 5 ==> sel == 0
  {
    if setting > 5 then 0 else setting
  }

  /** A diagnostics text field: dashes when empty. */
  function OrDashes(s: string): (r: string)
    ensures s == "" ==> r == "--"
    ensures s != "" ==> r == s
  {
    if s == "" then "--" else s
  }

  /** "<minutes>m <seconds>s" with two-digit seconds, read back. */
  predicate UptimeDecodes(r: string, u: nat) {
    && |r| >= 6
    && Canonical(r[..|r| - 5]) && r[|r| - 5..|r| - 3] == "m "
    && AllDigits(r[|r| - 3..|r| - 1]) && r[|r| - 1] == 's'
    && Value(r[|r| - 3..|r| - 1]) < 60
    && Value(r[..|r| - 5]) * 60 + Value(r[|r| - 3..|r| - 1]) == u
  }

  function UptimeLabel(u: uint32): (r: string)
    ensures r == "--" <==> u == 0
    ensures u != 0 ==> UptimeDecodes(r, u)
  {
    if u == 0 then "--"
    else
      var m, sec := Digits(u / 60), TwoDigits(u % 60);
      var r := m + "m " + sec + "s";
      assert r[..|r| - 5] == m && r[|r| - 3..|r| - 1] == sec;
      r
  }

  function SignalLabel(dbm: int16): (r: string)
    ensures r == "--" <==> dbm == 0
    ensures dbm != 0 ==>
      |r| > 4 && r[|r| - 4..] == " dBm" && IsSignedNumeral(r[..|r| - 4]) && SignedValue(r[..|r| - 4]) == dbm
  {
    if dbm == 0 then "--"
    else
      var n := SignedDigits(dbm);
      var r := n + " dBm";
      assert r[..|r| - 4] == n;
      r
  }

  // ---------------------------------------------------------------- screens

  datatype HomeTankView = HomeTankView(arc: uint8, level: string, temperature: TempReading, status: string)

  datatype HomeView = HomeView(freshTank: HomeTankView, greyTank: HomeTankView)

  /** What one half of the home screen shows for tank record `t`: the level
      on arc and label when known, the temperature in the selected unit when
      set, the status word when paired, and "--" for each of them otherwise. */
  predicate ShowsTank(v: HomeTankView, t: TankState, metric: bool) {
    && (v.level == "--" <==> !LevelKnown(t))
    && (LevelKnown(t) ==> v.arc == t.levelPercent && IsPercentOf(v.level, t.levelPercent))
    && (!LevelKnown(t) ==> v.arc == 0)
    && (v.temperature.TempShown? <==> t.paired && t.tempC.Some?)
    && (v.temperature.TempShown? ==>
          v.temperature.unit == (if metric then 'C' else 'F') && CelsiusOf(v.temperature) == t.tempC.value)
    && (v.status == "--" <==> !t.paired)
    && (t.paired ==> v.status == StatusText(t.status))
  }

  function HomeTank(t: TankState, metric: bool): (v: HomeTankView)
    ensures ShowsTank(v, t, metric)
    ensures v.level == "--" ==> v.arc == 0
    ensures v.level != "--" ==> IsPercentOf(v.level, v.arc)
    ensures !t.paired ==> v == HomeTankView(0, "--", TempDashes, "--")
  {
    HomeTankView(LevelGauge(t), LevelLabel(t), TempLabel(t, metric), StatusLabel(t))
  }

  /** The home screen: the fresh tank on its side and the grey (waste) tank
      on the other, each showing its own record. */
  function HomeScreen(s: CydState, metric: bool): (v: HomeView)
    ensures ShowsTank(v.freshTank, s.freshTank, metric)
    ensures ShowsTank(v.greyTank, s.wasteTank, metric)
  {
    HomeView(HomeTank(s.freshTank, metric), HomeTank(s.wasteTank, metric))
  }

  datatype TankView = TankView(
    bar: uint8, level: string, temperature: TempReading, status: string,
    leak: string, freeze: string, faultButton: string)

  /** The fresh tank screen and the waste tank screen, for their own tank. */
  function TankScreen(t: TankState, metric: bool): (v: TankView)
    ensures v.level == "--" ==> v.bar == 0
    ensures v.level != "--" ==> IsPercentOf(v.level, v.bar)
    ensures !t.paired ==> v == TankView(0, "--", TempDashes, "--", "--", "--", "Fault --")
    ensures ShowsTank(HomeTankView(v.bar, v.level, v.temperature, v.status), t, metric)
    ensures v.leak == "--" <==> !t.paired
    ensures v.leak == "Leak" <==> t.paired && t.leak
    ensures v.leak == "No Leak" <==> t.paired && !t.leak
    ensures v.freeze == "--" <==> !t.paired
    ensures v.freeze == "Freeze On" <==> t.paired && t.freezeEnabled
    ensures v.freeze == "Freeze Off" <==> t.paired && !t.freezeEnabled
    ensures v.faultButton == "Fault --" <==> !FaultCodeKnown(t)
    ensures FaultCodeKnown(t) ==>
      |v.faultButton| > 6 && v.faultButton[..6] == "Fault " &&
      Canonical(v.faultButton[6..]) && Value(v.faultButton[6..]) == t.faultCode
  {
    TankView(LevelGauge(t), LevelLabel(t), TempLabel(t, metric), StatusLabel(t),
             LeakLabel(t), FreezeLabel(t), FaultButtonLabel(t))
  }

  datatype FaultsView = FaultsView(code: string, description: string)

  /** A tank's faults screen. The stored description is shown only when the
      code label shows a code. */
  function FaultsScreen(t: TankState): (v: FaultsView)
    ensures v.code == "--" ==>
      v.description == "No Controller Connected" || v.description == "No Active Fault"
    ensures t.paired && t.status != Fault.Code() ==> v.description == "No Active Fault"
    ensures v.code != "--" ==> Canonical(v.code) && Value(v.code) == t.faultCode
    ensures v.code == "--" <==> !FaultCodeKnown(t)
    ensures !t.paired ==> v.description == "No Controller Connected"
    ensures t.paired && (t.faultCode == FAULT_INVALID || t.status != Fault.Code()) ==>
      v.description == "No Active Fault"
    ensures t.paired && t.faultCode != FAULT_INVALID && t.status == Fault.Code() ==>
      v.description == t.faultDescription
  {
    FaultsView(FaultCodeLabel(t), FaultDescription(t))
  }

  datatype SettingsView = SettingsView(
    stopSlider: uint8, stopPercentage: string, stopLevel: string,
    fullVoltage: VoltReading, emptyVoltage: VoltReading,
    freezeOptions: string, freezeSelected: nat,
    safetyOverride: bool, valveOverride: bool)

  /** A tank's settings screen (fill stop for fresh, drain stop for waste). */
  function SettingsScreen(t: TankState, metric: bool): (v: SettingsView)
    ensures v.stopPercentage == "--" ==> v.stopSlider == 0
    ensures v.stopPercentage != "--" ==> IsPercentOf(v.stopPercentage, v.stopSlider)
    ensures v.stopLevel != "--" ==> v.stopLevel == v.stopPercentage
    ensures v.freezeSelected < |FreezeOptionList(metric)|
    ensures v.safetyOverride == t.safetyOverrideEnabled && v.valveOverride == t.valveOverrideEnabled
    ensures v.stopPercentage == "--" <==> t.stopLevelPercent == SETTING_INVALID
    ensures t.stopLevelPercent != SETTING_INVALID ==> v.stopSlider == t.stopLevelPercent
    ensures v.stopLevel == "--" <==> t.stopLevelPercent == SETTING_INVALID || !t.paired
    ensures v.fullVoltage.VoltDashes? <==> t.fullVoltageMv == VOLT_INVALID
    ensures v.fullVoltage.VoltShown? ==> v.fullVoltage.millivolts == t.fullVoltageMv
    ensures v.emptyVoltage.VoltDashes? <==> t.emptyVoltageMv == VOLT_INVALID
    ensures v.emptyVoltage.VoltShown? ==> v.emptyVoltage.millivolts == t.emptyVoltageMv
    ensures v.freezeOptions == FreezeOptionsText(metric)
    ensures v.freezeSelected == if t.freezeSetting <= 5 then t.freezeSetting as nat else 0
  {
    SettingsView(StopSlider(t.stopLevelPercent), StopPercentText(t.stopLevelPercent),
                 StopLevelLabel(t), VoltageLabel(t.fullVoltageMv), VoltageLabel(t.emptyVoltageMv),
                 FreezeOptionsText(metric), FreezeSelection(t.freezeSetting),
                 t.safetyOverrideEnabled, t.valveOverrideEnabled)
  }

  /** The firmware label of the boot screen and of the display settings screen. */
  function FirmwareLabel(s: CydState): (r: string)
    ensures r == s.firmwareVersion
    ensures WellFormed(s) ==> FitsIn(r, 16)
  {
    s.firmwareVersion
  }

  datatype DiagView = DiagView(
    ip: string, id: string, mac: string, status: string, role: string,
    uptime: string, signal: string, version: string)

  /** A tank's diagnostics overlay. */
  function DiagOverlay(t: TankState): (v: DiagView)
    ensures !t.paired ==>
      v == DiagView("Not connected", "--", "--", "Not connected", "--", "--", "--", "--")
    ensures t.paired ==>
      && v.ip == OrDashes(t.diagIp) && v.id == OrDashes(t.diagId)
      && v.mac == OrDashes(t.diagMac) && v.status == OrDashes(t.diagStatus)
      && v.role == OrDashes(t.diagRole) && v.version == OrDashes(t.diagVersion)
      && v.uptime == UptimeLabel(t.diagUptimeS) && v.signal == SignalLabel(t.diagSignalDbm)
  {
    if !t.paired then
      DiagView("Not connected", "--", "--", "Not connected", "--", "--", "--", "--")
    else
      DiagView(OrDashes(t.diagIp), OrDashes(t.diagId), OrDashes(t.diagMac),
               OrDashes(t.diagStatus), OrDashes(t.diagRole),
               UptimeLabel(t.diagUptimeS), SignalLabel(t.diagSignalDbm),
               OrDashes(t.diagVersion))
  }

  // ---------------------------------------------------------------- properties

  /** Freshly initialised state passes the documented ranges, and every
      screen of both tanks shows no data: dashes, the fixed "not connected"
      messages, no fault, the Off freeze option and both switches off. */
  lemma DefaultsShowNoData(s: CydState, metric: bool)
    requires IsDefaultState(s)
    ensures WellFormed(s)
    ensures HomeScreen(s, metric) ==
      HomeView(HomeTankView(0, "--", TempDashes, "--"), HomeTankView(0, "--", TempDashes, "--"))
    ensures TankScreen(s.freshTank, metric) == TankView(0, "--", TempDashes, "--", "--", "--", "Fault --")
    ensures TankScreen(s.wasteTank, metric) == TankView(0, "--", TempDashes, "--", "--", "--", "Fault --")
    ensures FaultsScreen(s.freshTank) == FaultsView("--", "No Controller Connected")
    ensures FaultsScreen(s.wasteTank) == FaultsView("--", "No Controller Connected")
    ensures SettingsScreen(s.freshTank, metric) ==
      SettingsView(0, "--", "--", VoltDashes, VoltDashes, FreezeOptionsText(metric), 0, false, false)
    ensures SettingsScreen(s.wasteTank, metric) ==
      SettingsView(0, "--", "--", VoltDashes, VoltDashes, FreezeOptionsText(metric), 0, false, false)
    ensures DiagOverlay(s.freshTank) ==
      DiagView("Not connected", "--", "--", "Not connected", "--", "--", "--", "--")
    ensures DiagOverlay(s.wasteTank) ==
      DiagView("Not connected", "--", "--", "Not connected", "--", "--", "--", "--")
    ensures FirmwareLabel(s) == "V 0.0.1"
  {
  }

  /** A numeral of k + 1 digits without a leading zero denotes at least 10^k. */
  lemma {:induction false} CanonicalAtLeast(s: string, k: nat)
    requires Canonical(s) && s[0] != '0' && |s| == k + 1
    ensures Value(s) >= Pow10(k)
    decreases k
  {
    var init := s[..|s| - 1];
    assert Value(s) == Value(init) * 10 + (s[|s| - 1] as int - '0' as int);
    assert IsDigit(s[|s| - 1]);
    if k > 0 {
      assert init[0] == s[0];
      assert Canonical(init);
      CanonicalAtLeast(init, k - 1);
    } else {
      assert init == [];
    }
  }

  function Pow10(k: nat): (p: nat)
    ensures p >= 1
  {
    if k == 0 then 1 else 10 * Pow10(k - 1)
  }

  /** On a well-formed record a shown level label reads back as at most 100
      and so is at most "100%", four characters. */
  lemma ShownLevelInRange(t: TankState)
    requires TankWellFormed(t) && LevelKnown(t)
    ensures var r := LevelLabel(t); Value(r[..|r| - 1]) <= 100 && |r| <= 4
  {
    var r := LevelLabel(t);
    var digits := r[..|r| - 1];
    if |digits| >= 4 {
      CanonicalAtLeast(digits, |digits| - 1);
      assert Pow10(|digits| - 1) >= Pow10(3) by { Pow10Monotone(3, |digits| - 1); }
    }
  }

  lemma {:induction false} Pow10Monotone(j: nat, k: nat)
    requires j <= k
    ensures Pow10(j) <= Pow10(k)
    decreases k
  {
    if j < k {
      Pow10Monotone(j, k - 1);
    }
  }
}
