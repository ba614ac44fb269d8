/**
  Entities of the smart-home server: devices and the roles of their KNX group
  addresses, the mutable per-device state and the immutable history entries,
  webhooks. None of these carry behaviour of their own beyond the field-wise
  update that every state change performs.
 */
module Model {

  datatype Option<T> = None | Some(value: T)

  datatype Result<T, E> = Success(value: T) | Failure(error: E)

  /**
    What reading and parsing a JSON configuration file gave: the file is
    absent, it could not be read or parsed, or it parsed to a value.
   */
  datatype ConfigFile<T> = Missing | Unparsable | Parsed(value: T)

  /** Kotlin value class wrapping the device's identifying string. */
  datatype DeviceId = DeviceId(value: string)

  /**
    A 64-bit IEEE floating-point value (Kotlin `Double`). The model never
    computes with it: temperatures, wind speed and light intensity are only
    carried from a decoder to the state store and to persistence.
   */
  datatype Double = Double(bits: bv64)

  datatype DeviceType = LightSwitch | Dimmer | RollerShutter | Heating

  /** `DevicePowerState`; `AsInt` is the value written to persistence. */
  datatype PowerState = On | Off {
    function AsInt(): (n: int)
      ensures n == 1 <==> On?
      ensures n == 0 <==> Off?
    {
      match this
      case On => 1
      case Off => 0
    }
  }

  /**
    The role a group address plays for its device. This is the union of every
    role the source refers to: the seven of `GroupAddressType` plus the five
    that `FileDeviceRepository` returns although the enum does not list them.
   */
  datatype Role =
    | PowerStateWrite
    | PowerStateStatus
    | PercentageWrite
    | PercentageStatus
    | CurrentTemperature
    | TargetTemperature
    | TargetTemperatureWrite
    | TargetTemperatureStatus
    | WindSpeed
    | LightIntensity
    | Rainfall
    | LockObject

  /**
    A KNX device with one optional group address per role. `gaTargetTemperature`
    is not declared by the device class but is read by `CsvDeviceRepository`
    and `KnxServiceImpl`, so it is part of the union as well.
   */
  datatype Device = Device(
    id: DeviceId,
    name: string,
    deviceType: DeviceType,
    gaPowerStateWrite: Option<string>,
    gaPowerStateStatus: Option<string>,
    gaPercentageWrite: Option<string>,
    gaPercentageStatus: Option<string>,
    gaCurrentTemperature: Option<string>,
    gaTargetTemperature: Option<string>,
    gaTargetTemperatureWrite: Option<string>,
    gaTargetTemperatureStatus: Option<string>,
    gaWindSpeed: Option<string>,
    gaLightIntensity: Option<string>,
    gaRainfall: Option<string>,
    gaLockObject: Option<string>)

  /** The address a device holds for a role, if any. */
  function Address(d: Device, role: Role): Option<string> {
    match role
    case PowerStateWrite => d.gaPowerStateWrite
    case PowerStateStatus => d.gaPowerStateStatus
    case PercentageWrite => d.gaPercentageWrite
    case PercentageStatus => d.gaPercentageStatus
    case CurrentTemperature => d.gaCurrentTemperature
    case TargetTemperature => d.gaTargetTemperature
    case TargetTemperatureWrite => d.gaTargetTemperatureWrite
    case TargetTemperatureStatus => d.gaTargetTemperatureStatus
    case WindSpeed => d.gaWindSpeed
    case LightIntensity => d.gaLightIntensity
    case Rainfall => d.gaRainfall
    case LockObject => d.gaLockObject
  }

  /**
    The eight optional quantities that both a device state and a history entry
    carry. Every one of them is absent until a value is recorded.
   */
  datatype Fields = Fields(
    powerState: Option<PowerState>,
    percentage: Option<int>,
    currentTemperature: Option<Double>,
    targetTemperature: Option<Double>,
    windSpeed: Option<Double>,
    lightIntensity: Option<Double>,
    rainfall: Option<bool>,
    locked: Option<bool>)

  const NoFields := Fields(None, None, None, None, None, None, None, None)

  /** Names the eight quantities; `Name` is the column/field name persistence uses. */
  datatype Quantity =
    | PowerStateQ | PercentageQ | CurrentTemperatureQ | TargetTemperatureQ
    | WindSpeedQ | LightIntensityQ | RainfallQ | LockedQ
  {
    function Name(): string {
      match this
      case PowerStateQ => "powerState"
      case PercentageQ => "percentage"
      case CurrentTemperatureQ => "currentTemperature"
      case TargetTemperatureQ => "targetTemperature"
      case WindSpeedQ => "windSpeed"
      case LightIntensityQ => "lightIntensity"
      case RainfallQ => "rainfall"
      case LockedQ => "locked"
    }
  }

  /** The value of one quantity, tagged by its Kotlin type. */
  datatype Value = PowerValue(p: PowerState) | IntValue(i: int) | DoubleValue(d: Double) | BoolValue(b: bool)

  /** Reads one quantity of a `Fields` record. */
  function Get(f: Fields, q: Quantity): Option<Value> {
    match q
    case PowerStateQ => if f.powerState.Some? then Some(PowerValue(f.powerState.value)) else None
    case PercentageQ => if f.percentage.Some? then Some(IntValue(f.percentage.value)) else None
    case CurrentTemperatureQ => if f.currentTemperature.Some? then Some(DoubleValue(f.currentTemperature.value)) else None
    case TargetTemperatureQ => if f.targetTemperature.Some? then Some(DoubleValue(f.targetTemperature.value)) else None
    case WindSpeedQ => if f.windSpeed.Some? then Some(DoubleValue(f.windSpeed.value)) else None
    case LightIntensityQ => if f.lightIntensity.Some? then Some(DoubleValue(f.lightIntensity.value)) else None
    case RainfallQ => if f.rainfall.Some? then Some(BoolValue(f.rainfall.value)) else None
    case LockedQ => if f.locked.Some? then Some(BoolValue(f.locked.value)) else None
  }

  /** One state change: what each `updateX(deviceId, v)` of the state repository records. */
  datatype Change =
    | SetPowerState(powerState: PowerState)
    | SetPercentage(percentage: int)
    | SetCurrentTemperature(currentTemperature: Double)
    | SetTargetTemperature(targetTemperature: Double)
    | SetWindSpeed(windSpeed: Double)
    | SetLightIntensity(lightIntensity: Double)
    | SetRainfall(rainfall: bool)
    | SetLocked(locked: bool)
  {
    function Quantity(): Quantity {
      match this
      case SetPowerState(_) => PowerStateQ
      case SetPercentage(_) => PercentageQ
      case SetCurrentTemperature(_) => CurrentTemperatureQ
      case SetTargetTemperature(_) => TargetTemperatureQ
      case SetWindSpeed(_) => WindSpeedQ
      case SetLightIntensity(_) => LightIntensityQ
      case SetRainfall(_) => RainfallQ
      case SetLocked(_) => LockedQ
    }

    function Value(): Value {
      match this
      case SetPowerState(p) => PowerValue(p)
      case SetPercentage(i) => IntValue(i)
      case SetCurrentTemperature(t) => DoubleValue(t)
      case SetTargetTemperature(t) => DoubleValue(t)
      case SetWindSpeed(w) => DoubleValue(w)
      case SetLightIntensity(l) => DoubleValue(l)
      case SetRainfall(b) => BoolValue(b)
      case SetLocked(b) => BoolValue(b)
    }
  }

  /**
    Overwrites the one field a change names, keeping every other field: this is
    the assignment `getOrCreateDeviceStatus(id).x = v` of each `updateX`.
   */
  function Apply(f: Fields, c: Change): (r: Fields)
    ensures Get(r, c.Quantity()) == Some(c.Value())
    ensures forall q :: q != c.Quantity() ==> Get(r, q) == Get(f, q)
  {
    match c
    case SetPowerState(p) => f.(powerState := Some(p))
    case SetPercentage(i) => f.(percentage := Some(i))
    case SetCurrentTemperature(t) => f.(currentTemperature := Some(t))
    case SetTargetTemperature(t) => f.(targetTemperature := Some(t))
    case SetWindSpeed(w) => f.(windSpeed := Some(w))
    case SetLightIntensity(l) => f.(lightIntensity := Some(l))
    case SetRainfall(b) => f.(rainfall := Some(b))
    case SetLocked(b) => f.(locked := Some(b))
  }

  /** Two records agree when they agree on every quantity. */
  lemma {:induction false} FieldsExtensional(f: Fields, g: Fields)
    requires forall q :: Get(f, q) == Get(g, q)
    ensures f == g
  {
    assert Get(f, PowerStateQ) == Get(g, PowerStateQ);
    assert Get(f, PercentageQ) == Get(g, PercentageQ);
    assert Get(f, CurrentTemperatureQ) == Get(g, CurrentTemperatureQ);
    assert Get(f, TargetTemperatureQ) == Get(g, TargetTemperatureQ);
    assert Get(f, WindSpeedQ) == Get(g, WindSpeedQ);
    assert Get(f, LightIntensityQ) == Get(g, LightIntensityQ);
    assert Get(f, RainfallQ) == Get(g, RainfallQ);
    assert Get(f, LockedQ) == Get(g, LockedQ);
  }

  /** A later change of the same quantity hides an earlier one (overwrite, no merge). */
  lemma {:induction false} ApplyOverwrites(f: Fields, c1: Change, c2: Change)
    requires c1.Quantity() == c2.Quantity()
    ensures Apply(Apply(f, c1), c2) == Apply(f, c2)
  {
    forall q ensures Get(Apply(Apply(f, c1), c2), q) == Get(Apply(f, c2), q) {
    }
    FieldsExtensional(Apply(Apply(f, c1), c2), Apply(f, c2));
  }

  /** Changes of different quantities commute: their order does not matter. */
  lemma {:induction false} ApplyCommutes(f: Fields, c1: Change, c2: Change)
    requires c1.Quantity() != c2.Quantity()
    ensures Apply(Apply(f, c1), c2) == Apply(Apply(f, c2), c1)
  {
    forall q ensures Get(Apply(Apply(f, c1), c2), q) == Get(Apply(Apply(f, c2), c1), q) {
    }
    FieldsExtensional(Apply(Apply(f, c1), c2), Apply(Apply(f, c2), c1));
  }

  /** `DeviceStateHistoryEntry`: one recorded change with its timestamp. */
  datatype HistoryEntry = HistoryEntry(deviceId: DeviceId, timestampInMillis: int, fields: Fields)

  /**
    The entry an update appends: the device, the timestamp, and only the
    changed field set.
   */
  function EntryFor(id: DeviceId, millis: int, c: Change): (e: HistoryEntry)
    ensures e.deviceId == id && e.timestampInMillis == millis
    ensures Get(e.fields, c.Quantity()) == Some(c.Value())
    ensures forall q :: q != c.Quantity() ==> Get(e.fields, q) == None
  {
    HistoryEntry(id, millis, Apply(NoFields, c))
  }

  datatype Webhook = Webhook(deviceId: DeviceId, url: string)
}
