/**
 * The values the power client reads from UPower device objects
 * (the `Type`, `State` and `Online` properties of org.freedesktop.UPower.Device)
 * and the shapes of an enumeration of devices.
 */
module UPowerTypes {
  import opened Optional

  /** The `Type` property, with the numeric codes UPower uses on the bus. */
  datatype DeviceType =
    | Unknown | LinePower | Battery | Ups | Monitor | Mouse | Keyboard | Pda | Phone
  {
    function Code(): nat {
      match this
      case Unknown => 0
      case LinePower => 1
      case Battery => 2
      case Ups => 3
      case Monitor => 4
      case Mouse => 5
      case Keyboard => 6
      case Pda => 7
      case Phone => 8
    }
  }

  /** Reads a bus code back as a type; codes the client does not name have no type. */
  function DeviceTypeOf(code: nat): (r: Option<DeviceType>)
    ensures r.Some? <==> code <= 8
    ensures r.Some? ==> r.value.Code() == code
  {
    match code
    case 0 => Some(Unknown)
    case 1 => Some(LinePower)
    case 2 => Some(Battery)
    case 3 => Some(Ups)
    case 4 => Some(Monitor)
    case 5 => Some(Mouse)
    case 6 => Some(Keyboard)
    case 7 => Some(Pda)
    case 8 => Some(Phone)
    case _ => None
  }

  /** The `State` property, with its bus codes. */
  datatype DeviceState =
    | StateUnknown | Charging | Discharging | Empty | FullyCharged | PendingCharge | PendingDischarge
  {
    function Code(): nat {
      match this
      case StateUnknown => 0
      case Charging => 1
      case Discharging => 2
      case Empty => 3
      case FullyCharged => 4
      case PendingCharge => 5
      case PendingDischarge => 6
    }
  }

  function DeviceStateOf(code: nat): (r: Option<DeviceState>)
    ensures r.Some? <==> code <= 6
    ensures r.Some? ==> r.value.Code() == code
  {
    match code
    case 0 => Some(StateUnknown)
    case 1 => Some(Charging)
    case 2 => Some(Discharging)
    case 3 => Some(Empty)
    case 4 => Some(FullyCharged)
    case 5 => Some(PendingCharge)
    case 6 => Some(PendingDischarge)
    case _ => None
  }

  /** The codes are a faithful numbering: decoding a code gives back the value. */
  lemma CodesRoundTrip(t: DeviceType, s: DeviceState)
    ensures DeviceTypeOf(t.Code()) == Some(t)
    ensures DeviceStateOf(s.Code()) == Some(s)
  {
  }

  /**
   * A device proxy as the client sees it: the properties it reads, and whether
   * the client's `notify` handler is connected to it.
   */
  datatype Device = Device(kind: DeviceType, state: DeviceState, online: bool, handlerConnected: bool)

  /** An element of the tracked device list: the object path and its proxy. */
  datatype Entry = Entry(path: string, device: Device)

  /** Building the proxy for one enumerated path either succeeds or raises. */
  datatype Construction = Built(device: Device) | ConstructFailed

  datatype Probe = Probe(path: string, result: Construction)

  /** The outcome of `EnumerateDevices`: a bus error, or one probe per returned path. */
  datatype Enumeration = EnumerateFailed | Enumerated(probes: seq<Probe>)

  /** Only batteries and line-power supplies are tracked. */
  predicate IsTracked(kind: DeviceType) {
    kind == Battery || kind == LinePower
  }
}
