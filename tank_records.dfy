/** The records the display keeps for the two tanks it shows (tank_state_t and
    cyd_state_t) and the two enumerations they use. A C string in a `char[N]`
    field is its contents up to the terminating NUL, so it is a `string` of
    fewer than N characters with no NUL in it. */
module TankRecords {
  import opened Base

  /** tank_role_t. */
  datatype TankRole = NoRole | Fresh | Waste {
    function Code(): int8 {
      match this
      case NoRole => 0
      case Fresh => 1
      case Waste => 2
    }
  }

  /** tank_status_t: OK, then FILL, DRAIN and FAULT in consecutive order. */
  datatype TankStatus = Ok | Fill | Drain | Fault {
    function Code(): int {
      match this
      case Ok => 0
      case Fill => 1
      case Drain => 2
      case Fault => 3
    }
  }

  /** The enumerator a stored status code names, if any; the field is a C enum,
      whose storage can hold other values as well. */
  function StatusOfCode(c: int): (r: Option<TankStatus>)
    ensures r.Some? <==> 0 <= c <= 3
    ensures r.Some? ==> r.value.Code() == c
  {
    if c == 0 then Some(Ok)
    else if c == 1 then Some(Fill)
    else if c == 2 then Some(Drain)
    else if c == 3 then Some(Fault)
    else None
  }

  /** Every enumerator's code names that enumerator back, and the role codes
      are NONE = 0, FRESH = 1, WASTE = 2. */
  lemma EnumCodes(s: TankStatus)
    ensures StatusOfCode(s.Code()) == Some(s)
    ensures NoRole.Code() == 0 && Fresh.Code() == 1 && Waste.Code() == 2
  {
  }

  /** The sentinels that mean "not reported yet". */
  const LEVEL_INVALID: uint8 := 0xFF
  const SETTING_INVALID: uint8 := 0xFF
  const VOLT_INVALID: uint16 := 0xFFFF
  const FAULT_INVALID: uint16 := 0xFFFF

  /** tank_state_t. `tempC` is None where the firmware stores NaN; `status`
      is the raw tank_status_t value. */
  datatype TankState = TankState(
    paired: bool,
    name: string,
    role: int8,
    levelPercent: uint8,
    tempC: Option<real>,
    status: int,
    leak: bool,
    freezeEnabled: bool,
    freezeSetting: uint8,
    faultCode: uint16,
    faultDescription: string,
    stopLevelPercent: uint8,
    fullVoltageMv: uint16,
    emptyVoltageMv: uint16,
    safetyOverrideEnabled: bool,
    valveOverrideEnabled: bool,
    restartRequested: bool,
    diagIp: string,
    diagId: string,
    diagMac: string,
    diagStatus: string,
    diagRole: string,
    diagUptimeS: uint32,
    diagSignalDbm: int16,
    diagVersion: string)

  /** cyd_state_t: exactly the two tanks, the firmware version and the setup flag. */
  datatype CydState = CydState(
    freshTank: TankState,
    wasteTank: TankState,
    firmwareVersion: string,
    setupComplete: bool)

  /** A string that fits a NUL-terminated `char[size]`. */
  predicate FitsIn(s: string, size: nat) {
    |s| < size && '\0' !in s
  }

  /** The documented ranges: a level of 0..100 or unset, a freeze setting of
      Off, 1..5 or unset, a stop level of 0..100 or unset, a role of the enum. */
  predicate ValidLevel(p: uint8) {
    p <= 100 || p == LEVEL_INVALID
  }

  predicate ValidFreezeSetting(f: uint8) {
    f <= 5 || f == SETTING_INVALID
  }

  predicate ValidStopLevel(p: uint8) {
    p <= 100 || p == SETTING_INVALID
  }

  predicate ValidRole(r: int8) {
    r == NoRole.Code() || r == Fresh.Code() || r == Waste.Code()
  }

  predicate TankWellFormed(t: TankState) {
    && FitsIn(t.name, 16)
    && ValidRole(t.role)
    && ValidLevel(t.levelPercent)
    && ValidFreezeSetting(t.freezeSetting)
    && FitsIn(t.faultDescription, 64)
    && ValidStopLevel(t.stopLevelPercent)
    && FitsIn(t.diagIp, 32)
    && FitsIn(t.diagId, 32)
    && FitsIn(t.diagMac, 24)
    && FitsIn(t.diagStatus, 24)
    && FitsIn(t.diagRole, 16)
    && FitsIn(t.diagVersion, 16)
  }

  predicate WellFormed(s: CydState) {
    TankWellFormed(s.freshTank) && TankWellFormed(s.wasteTank) && FitsIn(s.firmwareVersion, 16)
  }
}
