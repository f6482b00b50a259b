/**
 * The accessory adapter for one Winix C545 air purifier (index.js, WinixC545).
 *
 * The adapter keeps the last fetched device record ("device"), starting
 * unset; only a status fetch assigns it. Every get and set handler first
 * checks it and fails with "No Air Purifier is discovered." while it is
 * unset, before any request. The HTTP calls are not modelled: a status
 * read's outcome and a control request's success are inputs to the methods,
 * and a ghost log records the URL of every request the adapter issues.
 */
module Adapter {
  import opened Wrappers
  import opened Decimal
  import opened Mapping

  const CONTROL_BASE: string := "https://smart.us.gw.winixcorp.com/homedevice/control/"
  const STATUS_BASE: string := "https://smart.us.gw.winixcorp.com/homedevice/status/"

  /** One device record of a status response; only its attribute map is read. */
  datatype Snapshot = Snapshot(attributes: Attributes)

  /**
   * What a status read yields: the request or the response envelope failed
   * before the device list was reached, or the list body.data was read.
   */
  datatype FetchOutcome = FetchFailed | Fetched(data: seq<Snapshot>)

  /** The error a handler passes to the host's callback. */
  datatype Error =
    | NotDiscovered   // "No Air Purifier is discovered."
    | RequestFailed   // the control request was rejected

  /**
   * How a handler answers the host: a value, an error, or not at all (a get
   * handler whose status read fails never calls its callback).
   */
  datatype Reply<T> = Answer(value: T) | Fail(error: Error) | NoCallback

  /** The device record after a status read: data[0] replaces it, and an empty list leaves it unset. */
  function FetchedDevice(current: Option<Snapshot>, outcome: FetchOutcome): (device: Option<Snapshot>)
    ensures outcome.FetchFailed? ==> device == current
    ensures outcome.Fetched? ==> (device.Some? <==> outcome.data != [])
    ensures outcome.Fetched? && outcome.data != [] ==> device == Some(outcome.data[0])
    ensures device.Some? && device != current ==> outcome.Fetched? && device.value == outcome.data[0]
  {
    match outcome
    case FetchFailed => current
    case Fetched(data) => if data == [] then None else Some(data[0])
  }

  /** The attribute map a status read resolves with, when it resolves at all. */
  function FetchedAttributes(outcome: FetchOutcome): (attributes: Option<Attributes>)
    ensures attributes.Some? <==> outcome.Fetched? && outcome.data != []
    ensures attributes.Some? ==> FetchedDevice(None, outcome) == Some(Snapshot(attributes.value))
  {
    match outcome
    case FetchFailed => None
    case Fetched(data) => if data == [] then None else Some(data[0].attributes)
  }

  /** The status one code has after a status read, when the read resolves. */
  function Observed(outcome: FetchOutcome, code: string): (status: Option<nat>)
    ensures status.Some? <==> FetchedAttributes(outcome).Some?
    ensures status.Some? ==> status.value == StatusOf(FetchedAttributes(outcome).value, code)
  {
    match FetchedAttributes(outcome)
    case None => None
    case Some(attributes) => Some(StatusOf(attributes, code))
  }

  class WinixC545 {
    const deviceId: string
    const apiServer: string
    const deviceStatusServer: string

    /** The last fetched device record; None until discovered. */
    var device: Option<Snapshot>
    /** The value last pushed to the host's Active characteristic, if any. */
    var active: Option<int>
    /** The value last pushed to the host's TargetAirPurifierState characteristic, if any. */
    var targetAirPurifierState: Option<int>
    /** The URL of every request issued, in order. */
    ghost var requests: seq<string>

    /** A deviceId is required; the adapter starts undiscovered, with nothing requested. */
    constructor (deviceId: string)
      requires deviceId != []
      ensures this.deviceId == deviceId
      ensures apiServer == CONTROL_BASE + deviceId && deviceStatusServer == STATUS_BASE + deviceId
      ensures device == None && active == None && targetAirPurifierState == None
      ensures requests == []
    {
      this.deviceId := deviceId;
      apiServer := CONTROL_BASE + deviceId;
      deviceStatusServer := STATUS_BASE + deviceId;
      device := None;
      active := None;
      targetAirPurifierState := None;
      requests := [];
    }

    /** The first status read, issued once after construction. */
    method Init(outcome: FetchOutcome)
      modifies this`device, this`requests
      ensures device == FetchedDevice(old(device), outcome)
      ensures requests == old(requests) + [deviceStatusServer]
    {
      var _ := GetStatusesFromServer(outcome);
    }

    /**
     * Read the device's status: the snapshot is replaced wholesale by the
     * first device record (unset when the list is empty) and its attribute
     * map is returned; a failed read leaves the snapshot as it was.
     */
    method GetStatusesFromServer(outcome: FetchOutcome) returns (attributes: Option<Attributes>)
      modifies this`device, this`requests
      ensures device == FetchedDevice(old(device), outcome)
      ensures attributes == FetchedAttributes(outcome)
      ensures requests == old(requests) + [deviceStatusServer]
    {
      requests := requests + [deviceStatusServer];
      match outcome
      case FetchFailed =>
        attributes := None;
      case Fetched(data) =>
        if data == [] {
          // The assignment happens before the attribute map is read, which then fails.
          device := None;
          attributes := None;
        } else {
          device := Some(data[0]);
          attributes := Some(data[0].attributes);
        }
    }

    /** Read the device's status and project one code: parseInt(value, 10) || 0. */
    method GetStatusFromServer(code: string, outcome: FetchOutcome) returns (status: Option<nat>)
      modifies this`device, this`requests
      ensures device == FetchedDevice(old(device), outcome)
      ensures status == Observed(outcome, code)
      ensures requests == old(requests) + [deviceStatusServer]
    {
      var attributes := GetStatusesFromServer(outcome);
      match attributes
      case None =>
        status := None;
      case Some(a) =>
        status := Some(StatusOf(a, code));
    }

    method GetActiveState(outcome: FetchOutcome) returns (reply: Reply<Active>)
      modifies this`device, this`requests
      ensures old(device) == None ==> reply == Fail(NotDiscovered) && unchanged(this)
      ensures old(device) != None ==>
        device == FetchedDevice(old(device), outcome) &&
        requests == old(requests) + [deviceStatusServer] &&
        reply == match Observed(outcome, POWER)
                 case None => NoCallback
                 case Some(status) => Answer(ActiveFromStatus(status))
    {
      if device == None {
        return Fail(NotDiscovered);
      }
      var status := GetStatusFromServer(POWER, outcome);
      match status
      case None =>
        reply := NoCallback;
      case Some(s) =>
        reply := Answer(ActiveFromStatus(s));
    }

    /** Switch the purifier on or off; on success the Active characteristic takes the requested value. */
    method SetActiveState(state: int, succeeded: bool) returns (reply: Reply<()>)
      modifies this`active, this`requests
      ensures old(device) == None ==> reply == Fail(NotDiscovered) && unchanged(this)
      ensures old(device) != None ==>
        requests == old(requests) + [ControlPath(apiServer, POWER, IntToString(state))] &&
        reply == (if succeeded then Answer(()) else Fail(RequestFailed)) &&
        active == (if succeeded then Some(state) else old(active))
    {
      if device == None {
        return Fail(NotDiscovered);
      }
      var url := ControlPath(apiServer, POWER, IntToString(state));
      requests := requests + [url];
      if succeeded {
        active := Some(state);
        reply := Answer(());
      } else {
        reply := Fail(RequestFailed);
      }
    }

    method GetCurrentAirPurifierState(outcome: FetchOutcome) returns (reply: Reply<CurrentAirPurifierState>)
      modifies this`device, this`requests
      ensures old(device) == None ==> reply == Fail(NotDiscovered) && unchanged(this)
      ensures old(device) != None ==>
        device == FetchedDevice(old(device), outcome) &&
        requests == old(requests) + [deviceStatusServer] &&
        reply == match Observed(outcome, POWER)
                 case None => NoCallback
                 case Some(status) => Answer(CurrentStateFromStatus(status))
    {
      if device == None {
        return Fail(NotDiscovered);
      }
      var status := GetStatusFromServer(POWER, outcome);
      match status
      case None =>
        reply := NoCallback;
      case Some(s) =>
        reply := Answer(CurrentStateFromStatus(s));
    }

    method GetTargetAirPurifierState(outcome: FetchOutcome) returns (reply: Reply<TargetAirPurifierState>)
      modifies this`device, this`requests
      ensures old(device) == None ==> reply == Fail(NotDiscovered) && unchanged(this)
      ensures old(device) != None ==>
        device == FetchedDevice(old(device), outcome) &&
        requests == old(requests) + [deviceStatusServer] &&
        reply == match Observed(outcome, AUTO_MANUAL)
                 case None => NoCallback
                 case Some(status) => Answer(TargetStateFromStatus(status))
    {
      if device == None {
        return Fail(NotDiscovered);
      }
      var status := GetStatusFromServer(AUTO_MANUAL, outcome);
      match status
      case None =>
        reply := NoCallback;
      case Some(s) =>
        reply := Answer(TargetStateFromStatus(s));
    }

    /** Switch between auto and manual; on success the characteristic takes the requested value. */
    method SetTargetAirPurifierState(state: int, succeeded: bool) returns (reply: Reply<()>)
      modifies this`targetAirPurifierState, this`requests
      ensures old(device) == None ==> reply == Fail(NotDiscovered) && unchanged(this)
      ensures old(device) != None ==>
        requests == old(requests) + [ControlPath(apiServer, AUTO_MANUAL, ModeValue(state))] &&
        reply == (if succeeded then Answer(()) else Fail(RequestFailed)) &&
        targetAirPurifierState == (if succeeded then Some(state) else old(targetAirPurifierState))
    {
      if device == None {
        return Fail(NotDiscovered);
      }
      var targetState := if state != 0 then "01" else "02";
      var url := ControlPath(apiServer, AUTO_MANUAL, targetState);
      requests := requests + [url];
      if succeeded {
        reply := Answer(());
        targetAirPurifierState := Some(state);
      } else {
        reply := Fail(RequestFailed);
      }
    }

    method GetRotationSpeed(outcome: FetchOutcome) returns (reply: Reply<int>)
      modifies this`device, this`requests
      ensures old(device) == None ==> reply == Fail(NotDiscovered) && unchanged(this)
      ensures old(device) != None ==>
        device == FetchedDevice(old(device), outcome) &&
        requests == old(requests) + [deviceStatusServer] &&
        reply == match Observed(outcome, ROTATION_SPEED)
                 case None => NoCallback
                 case Some(status) => Answer(PercentFromStatus(status))
    {
      if device == None {
        return Fail(NotDiscovered);
      }
      var status := GetStatusFromServer(ROTATION_SPEED, outcome);
      match status
      case None =>
        reply := NoCallback;
      case Some(s) =>
        reply := Answer(PercentFromStatus(s));
    }

    /** Set the fan speed; no characteristic is updated, on success or failure. */
    method SetRotationSpeed(speed: int, succeeded: bool) returns (reply: Reply<()>)
      modifies this`requests
      ensures old(device) == None ==> reply == Fail(NotDiscovered) && unchanged(this)
      ensures old(device) != None ==>
        requests == old(requests) + [ControlPath(apiServer, ROTATION_SPEED, SpeedCode(speed))] &&
        reply == (if succeeded then Answer(()) else Fail(RequestFailed))
    {
      if device == None {
        return Fail(NotDiscovered);
      }
      var targetState := SelectSpeedCode(speed);
      var url := ControlPath(apiServer, ROTATION_SPEED, targetState);
      requests := requests + [url];
      reply := if succeeded then Answer(()) else Fail(RequestFailed);
    }

    method GetAirQuality(outcome: FetchOutcome) returns (reply: Reply<AirQuality>)
      modifies this`device, this`requests
      ensures old(device) == None ==> reply == Fail(NotDiscovered) && unchanged(this)
      ensures old(device) != None ==>
        device == FetchedDevice(old(device), outcome) &&
        requests == old(requests) + [deviceStatusServer] &&
        reply == match Observed(outcome, AIR_QUALITY)
                 case None => NoCallback
                 case Some(status) => Answer(AirQualityFromStatus(status))
    {
      if device == None {
        return Fail(NotDiscovered);
      }
      var status := GetStatusFromServer(AIR_QUALITY, outcome);
      match status
      case None =>
        reply := NoCallback;
      case Some(s) =>
        reply := Answer(AirQualityFromStatus(s));
    }

    /** Read the plasmawave flag: the projected status is passed to the host as it is. */
    method GetPlasmawave(outcome: FetchOutcome) returns (reply: Reply<nat>)
      modifies this`device, this`requests
      ensures old(device) == None ==> reply == Fail(NotDiscovered) && unchanged(this)
      ensures old(device) != None ==>
        device == FetchedDevice(old(device), outcome) &&
        requests == old(requests) + [deviceStatusServer] &&
        reply == match Observed(outcome, PLASMAWAVE)
                 case None => NoCallback
                 case Some(status) => Answer(status)
    {
      if device == None {
        return Fail(NotDiscovered);
      }
      var status := GetStatusFromServer(PLASMAWAVE, outcome);
      match status
      case None =>
        reply := NoCallback;
      case Some(s) =>
        reply := Answer(s);
    }

    /** Switch plasmawave on or off; no characteristic is updated, on success or failure. */
    method SetPlasmawave(state: bool, succeeded: bool) returns (reply: Reply<()>)
      modifies this`requests
      ensures old(device) == None ==> reply == Fail(NotDiscovered) && unchanged(this)
      ensures old(device) != None ==>
        requests == old(requests) + [ControlPath(apiServer, PLASMAWAVE, PlasmawaveValue(state))] &&
        reply == (if succeeded then Answer(()) else Fail(RequestFailed))
    {
      if device == None {
        return Fail(NotDiscovered);
      }
      var targetState := if state then "1" else "0";
      var url := ControlPath(apiServer, PLASMAWAVE, targetState);
      requests := requests + [url];
      reply := if succeeded then Answer(()) else Fail(RequestFailed);
    }
  }

  /**
   * A session with the adapter: a handler called before discovery fails
   * without a request; a status read that returns one device discovers it,
   * after which a power read and a switch-off behave as the device reports.
   */
  method DiscoverySession(deviceId: string, record: Snapshot, switchOffSucceeds: bool)
    returns (early: Reply<()>, power: Reply<Active>, off: Reply<()>)
    requires deviceId != []
    ensures early == Fail(NotDiscovered)
    ensures power == Answer(ActiveFromStatus(StatusOf(record.attributes, POWER)))
    ensures off == if switchOffSucceeds then Answer(()) else Fail(RequestFailed)
  {
    var purifier := new WinixC545(deviceId);
    early := purifier.SetRotationSpeed(40, true);
    assert purifier.requests == [];
    purifier.Init(Fetched([record]));
    assert purifier.device == Some(record);
    power := purifier.GetActiveState(Fetched([record]));
    off := purifier.SetActiveState(0, switchOffSucceeds);
    assert purifier.active == if switchOffSucceeds then Some(0) else None;
  }
}
