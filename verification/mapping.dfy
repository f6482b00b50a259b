/**
 * The translation between the home-automation host's characteristic values
 * and the Winix vendor's status codes, as index.js writes it: the status-code
 * names, the read mappings (vendor integer to host value), the write mappings
 * (host value to vendor command value) and the control-command path.
 */
module Mapping {
  import opened Wrappers
  import opened Decimal

  // The vendor's status codes (index.js, serverStatuses).
  const POWER: string := "A02"
  const AUTO_MANUAL: string := "A03"
  const ROTATION_SPEED: string := "A04"
  const PLASMAWAVE: string := "A07"
  const AIR_QUALITY: string := "S07"

  // Host characteristic values the handlers produce; their numeric encoding
  // belongs to the host library and is not part of this model.
  datatype Active = INACTIVE | ACTIVE
  datatype CurrentAirPurifierState = INACTIVE | PURIFYING_AIR
  datatype TargetAirPurifierState = MANUAL | AUTO
  datatype AirQuality = UNKNOWN | GOOD | FAIR | POOR

  /** A device's attribute map: status code to the value the vendor reported, as text. */
  type Attributes = map<string, string>

  /** The percentages a rotation-speed read can report for a running fan. */
  const SPEED_BUCKETS: set<int> := {25, 50, 75, 100}

  /**
   * One status code projected out of the attribute map: parseInt(value, 10) || 0.
   * A missing code, text that does not start with a digit, and "0" all give 0.
   */
  function StatusOf(attributes: Attributes, code: string): (status: nat)
    ensures code !in attributes ==> status == 0
    ensures code in attributes ==> status == ParseIntOrZero(attributes[code])
    ensures code in attributes && ParseInt(attributes[code]).None? ==> status == 0
  {
    if code in attributes then ParseIntOrZero(attributes[code]) else 0
  }

  /** Power status to Active: any nonzero status is ACTIVE. */
  function ActiveFromStatus(status: int): (a: Active)
    ensures a == Active.ACTIVE <==> status != 0
  {
    if status != 0 then Active.ACTIVE else Active.INACTIVE
  }

  /** Power status to CurrentAirPurifierState: any nonzero status is PURIFYING_AIR. */
  function CurrentStateFromStatus(status: int): (s: CurrentAirPurifierState)
    ensures s == PURIFYING_AIR <==> status != 0
  {
    if status != 0 then PURIFYING_AIR else CurrentAirPurifierState.INACTIVE
  }

  /** Auto/manual status to TargetAirPurifierState: exactly 1 is AUTO, everything else MANUAL. */
  function TargetStateFromStatus(status: int): (t: TargetAirPurifierState)
    ensures t == AUTO <==> status == 1
  {
    if status == 1 then AUTO else MANUAL
  }

  /** Air-quality status to AirQuality: 1, 2, 3 are GOOD, FAIR, POOR; any other is UNKNOWN. */
  function AirQualityFromStatus(status: int): (q: AirQuality)
    ensures q == GOOD <==> status == 1
    ensures q == FAIR <==> status == 2
    ensures q == POOR <==> status == 3
    ensures q == UNKNOWN <==> status !in {1, 2, 3}
  {
    if status == 1 then GOOD
    else if status == 2 then FAIR
    else if status == 3 then POOR
    else UNKNOWN
  }

  /** Vendor speed level to a rotation-speed percentage: 1, 2, 3, 5 are 25, 50, 75, 100; any other is 0. */
  function PercentFromStatus(status: int): (speed: int)
    ensures speed in SPEED_BUCKETS || speed == 0
    ensures speed != 0 <==> status in {1, 2, 3, 5}
    ensures speed != 0 ==> speed == 25 * (if status == 5 then 4 else status)
  {
    if status == 1 then 25
    else if status == 2 then 50
    else if status == 3 then 75
    else if status == 5 then 100
    else 0
  }

  /**
   * Rotation-speed percentage to the vendor speed code: the bucket
   * (.., 25] is "01", (25, 50] is "02", (50, 75] is "03" and (75, ..) is "05".
   * Every integer, below 0 and above 100 included, gets one of the four codes.
   */
  function SpeedCode(speed: int): (code: string)
    ensures code in {"01", "02", "03", "05"}
  {
    if speed <= 25 then "01"
    else if speed <= 50 then "02"
    else if speed <= 75 then "03"
    else "05"
  }

  /**
   * The speed code as index.js computes it: a default, then four ifs
   * whose later matches override the earlier ones.
   */
  method SelectSpeedCode(speed: int) returns (targetState: string)
    ensures targetState == SpeedCode(speed)
  {
    targetState := "01";
    if speed > 75 {
      targetState := "05";
    }
    if speed <= 75 {
      targetState := "03";
    }
    if speed <= 50 {
      targetState := "02";
    }
    if speed <= 25 {
      targetState := "01";
    }
  }

  /** Target state to the auto/manual command value: truthy (nonzero) is "01", 0 is "02". */
  function ModeValue(state: int): (value: string)
    ensures value == ZeroPad2(if state != 0 then 1 else 2)
  {
    if state != 0 then "01" else "02"
  }

  /** The plasmawave command value: 1 when on, 0 when off. */
  function PlasmawaveValue(state: bool): (value: string)
    ensures value == NatToString(if state then 1 else 0)
  {
    if state then "1" else "0"
  }

  /** The control request path: the per-device control base, then "/<code>:<value>". */
  function ControlPath(apiServer: string, code: string, value: string): (url: string)
    ensures |url| == |apiServer| + |code| + |value| + 2
    ensures url[..|apiServer|] == apiServer && url[|apiServer|] == '/'
    ensures url[|apiServer| + 1..|apiServer| + 1 + |code|] == code
    ensures url[|apiServer| + 1 + |code|] == ':'
    ensures url[|apiServer| + 2 + |code|..] == value
  {
    apiServer + "/" + code + ":" + value
  }

  /** A control path names its command: equal paths with equally long codes carry the same code and value. */
  lemma ControlPathDetermines(apiServer: string, code1: string, value1: string, code2: string, value2: string)
    requires |code1| == |code2|
    requires ControlPath(apiServer, code1, value1) == ControlPath(apiServer, code2, value2)
    ensures code1 == code2 && value1 == value2
  {
  }

  /** Power status and both power-derived characteristics agree on "running". */
  lemma PowerReadsAgree(status: int)
    ensures ActiveFromStatus(status) == Active.ACTIVE <==> CurrentStateFromStatus(status) == PURIFYING_AIR
  {
  }

  /** Get then set: setting the percentage a speed read reports sends back the level read, zero-padded. */
  lemma SpeedGetThenSet(level: int)
    requires level in {1, 2, 3, 5}
    ensures SpeedCode(PercentFromStatus(level)) == ZeroPad2(level)
  {
  }

  /**
   * Set then get: when the device reports the speed code it was sent, the
   * speed read returns the least bucket at or above the requested percentage
   * (100 above 100). The mapping is a lossy ceiling, not an inverse.
   */
  lemma SpeedSetThenGet(attributes: Attributes, speed: int)
    ensures var r := StatusOf(attributes[ROTATION_SPEED := SpeedCode(speed)], ROTATION_SPEED);
      var percent := PercentFromStatus(r);
      percent in SPEED_BUCKETS &&
      (speed <= 100 ==> speed <= percent && forall b :: b in SPEED_BUCKETS && speed <= b ==> percent <= b) &&
      (speed > 100 ==> percent == 100)
  {
    var code := SpeedCode(speed);
    var level := if speed <= 25 then 1 else if speed <= 50 then 2 else if speed <= 75 then 3 else 5;
    assert code == ['0', DigitChar(level)];
    assert code == ZeroPad2(level);
  }

  /** Power echo: a device reporting the raw Active value it was sent reads back as that state. */
  lemma PowerEcho(attributes: Attributes, state: nat)
    ensures ActiveFromStatus(StatusOf(attributes[POWER := IntToString(state)], POWER))
         == if state != 0 then Active.ACTIVE else Active.INACTIVE
  {
    ParseNatToString(state, []);
    assert NatToString(state) + [] == NatToString(state);
  }

  /** Mode echo: a device reporting the mode value it was sent reads back AUTO exactly for a truthy state. */
  lemma ModeEcho(attributes: Attributes, state: int)
    ensures TargetStateFromStatus(StatusOf(attributes[AUTO_MANUAL := ModeValue(state)], AUTO_MANUAL))
         == if state != 0 then AUTO else MANUAL
  {
  }

  /** Plasmawave echo: a device reporting the value it was sent reads back 1 when on and 0 when off. */
  lemma PlasmawaveEcho(attributes: Attributes, state: bool)
    ensures StatusOf(attributes[PLASMAWAVE := PlasmawaveValue(state)], PLASMAWAVE) == if state then 1 else 0
  {
    ParseNatToString(if state then 1 else 0, []);
    assert PlasmawaveValue(state) + [] == PlasmawaveValue(state);
  }
}
