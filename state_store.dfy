/**
  The device-state repository: a map from device id to a mutable state
  object, created on first use and never removed, and an append-only history
  list. Every update overwrites one field of one device's state, appends one
  history entry carrying only that field, and hands one record to the
  persistence backend (a CSV row or an InfluxDB point), all modelled here on
  values. The CSV and InfluxDB repositories share this in-memory logic; they
  differ in the record they persist and in which updates they offer.
 */
module StateStore {
  import opened Model

  datatype InfluxDbSettings = InfluxDbSettings(url: string, token: string)

  /** Which persistence the repository writes to. */
  datatype Backend = CsvFile | InfluxDb(settings: InfluxDbSettings)

  /**
    The InfluxDB repository implements only five of the eight updates of the
    repository interface: it has no wind-speed, light-intensity or rainfall
    update.
   */
  predicate Supports(backend: Backend, c: Change) {
    backend.CsvFile? || !(c.SetWindSpeed? || c.SetLightIntensity? || c.SetRainfall?)
  }

  // ---------------------------------------------------------------------
  // Persistence records

  /** A cell of a history CSV row. */
  datatype Cell = IntCell(i: int) | DoubleCell(d: Double)

  /** One row appended to `device_state_history.csv`. */
  datatype CsvRow = CsvRow(deviceId: string, millis: int, fieldName: string, value: Cell)

  /** A field value of an InfluxDB point. */
  datatype PointField = IntField(i: int) | DoubleField(d: Double) | BoolField(b: bool)

  /** One InfluxDB point: measurement, fields, timestamp in milliseconds. */
  datatype Point = Point(measurement: string, fields: map<string, PointField>, timeMillis: int)

  datatype Persisted = Row(row: CsvRow) | InfluxPoint(point: Point)

  /** How a CSV row writes a value: power state as `asInt()`, booleans as 1 or 0. */
  function CsvCell(v: Value): Cell {
    match v
    case PowerValue(p) => IntCell(p.AsInt())
    case IntValue(i) => IntCell(i)
    case DoubleValue(d) => DoubleCell(d)
    case BoolValue(b) => IntCell(if b then 1 else 0)
  }

  /** The row `updateX` of the CSV repository appends: id, millis, field name, value. */
  function CsvRowFor(id: DeviceId, millis: int, c: Change): CsvRow {
    CsvRow(id.value, millis, c.Quantity().Name(), CsvCell(c.Value()))
  }

  /**
    How an InfluxDB point writes a value: power state as `asInt()`, the lock
    as a boolean field (not 1/0 as in CSV).
   */
  function PointValue(v: Value): PointField {
    match v
    case PowerValue(p) => IntField(p.AsInt())
    case IntValue(i) => IntField(i)
    case DoubleValue(d) => DoubleField(d)
    case BoolValue(b) => BoolField(b)
  }

  /**
    The point `updateX` of the InfluxDB repository writes: the device id as
    measurement and the one updated field. Its time is a second clock reading,
    taken after the history entry's.
   */
  function PointFor(id: DeviceId, clockMillis: int, c: Change): Point {
    Point(id.value, map[c.Quantity().Name() := PointValue(c.Value())], clockMillis)
  }

  function Persist(backend: Backend, id: DeviceId, millis: int, clockMillis: int, c: Change): Persisted {
    match backend
    case CsvFile => Row(CsvRowFor(id, millis, c))
    case InfluxDb(_) => InfluxPoint(PointFor(id, clockMillis, c))
  }

  /** The quantity a persisted field name stands for. */
  function QuantityNamed(name: string): Option<Quantity> {
    if name == "powerState" then Some(PowerStateQ)
    else if name == "percentage" then Some(PercentageQ)
    else if name == "currentTemperature" then Some(CurrentTemperatureQ)
    else if name == "targetTemperature" then Some(TargetTemperatureQ)
    else if name == "windSpeed" then Some(WindSpeedQ)
    else if name == "lightIntensity" then Some(LightIntensityQ)
    else if name == "rainfall" then Some(RainfallQ)
    else if name == "locked" then Some(LockedQ)
    else None
  }

  /** Reads back a change from a CSV field name and cell, where they make sense. */
  function ChangeOfCell(name: string, cell: Cell): Option<Change> {
    match (QuantityNamed(name), cell)
    case (Some(PowerStateQ), IntCell(1)) => Some(SetPowerState(On))
    case (Some(PowerStateQ), IntCell(0)) => Some(SetPowerState(Off))
    case (Some(PercentageQ), IntCell(i)) => Some(SetPercentage(i))
    case (Some(CurrentTemperatureQ), DoubleCell(d)) => Some(SetCurrentTemperature(d))
    case (Some(TargetTemperatureQ), DoubleCell(d)) => Some(SetTargetTemperature(d))
    case (Some(WindSpeedQ), DoubleCell(d)) => Some(SetWindSpeed(d))
    case (Some(LightIntensityQ), DoubleCell(d)) => Some(SetLightIntensity(d))
    case (Some(RainfallQ), IntCell(1)) => Some(SetRainfall(true))
    case (Some(RainfallQ), IntCell(0)) => Some(SetRainfall(false))
    case (Some(LockedQ), IntCell(1)) => Some(SetLocked(true))
    case (Some(LockedQ), IntCell(0)) => Some(SetLocked(false))
    case _ => None
  }

  /** Reads back a change from an InfluxDB field name and value. */
  function ChangeOfField(name: string, f: PointField): Option<Change> {
    match (QuantityNamed(name), f)
    case (Some(PowerStateQ), IntField(1)) => Some(SetPowerState(On))
    case (Some(PowerStateQ), IntField(0)) => Some(SetPowerState(Off))
    case (Some(PercentageQ), IntField(i)) => Some(SetPercentage(i))
    case (Some(CurrentTemperatureQ), DoubleField(d)) => Some(SetCurrentTemperature(d))
    case (Some(TargetTemperatureQ), DoubleField(d)) => Some(SetTargetTemperature(d))
    case (Some(LockedQ), BoolField(b)) => Some(SetLocked(b))
    case _ => None
  }

  /**
    A CSV row loses nothing: its device id, timestamp, field name and cell give
    back the very change and the history entry that the update recorded.
   */
  lemma {:induction false} CsvRowRoundTrip(id: DeviceId, millis: int, c: Change)
    ensures var row := CsvRowFor(id, millis, c);
      row.deviceId == id.value && row.millis == millis &&
      ChangeOfCell(row.fieldName, row.value) == Some(c) &&
      Get(EntryFor(id, millis, c).fields, c.Quantity()).Some? &&
      QuantityNamed(row.fieldName) == Some(c.Quantity())
  {
    match c
    case SetPowerState(p) => assert p.On? || p.Off?;
    case SetRainfall(b) => assert b || !b;
    case SetLocked(b) => assert b || !b;
    case _ =>
  }

  /**
    An InfluxDB point of a supported update has the device id as measurement,
    exactly one field, named after the updated quantity, and that field gives
    back the change.
   */
  lemma {:induction false} PointRoundTrip(id: DeviceId, clockMillis: int, c: Change)
    requires Supports(InfluxDb(InfluxDbSettings("", "")), c)
    ensures var p := PointFor(id, clockMillis, c);
      p.measurement == id.value && p.timeMillis == clockMillis &&
      p.fields.Keys == {c.Quantity().Name()} &&
      ChangeOfField(c.Quantity().Name(), p.fields[c.Quantity().Name()]) == Some(c)
  {
    match c
    case SetPowerState(p) => assert p.On? || p.Off?;
    case _ =>
  }

  /** The lock is a boolean field in InfluxDB but a 1/0 cell in CSV. */
  lemma LockedEncodings(id: DeviceId, millis: int, clockMillis: int, b: bool)
    ensures PointFor(id, clockMillis, SetLocked(b)).fields["locked"] == BoolField(b)
    ensures CsvRowFor(id, millis, SetLocked(b)).value == IntCell(if b then 1 else 0)
  {
  }

  // ---------------------------------------------------------------------
  // The in-memory cache and history, as values

  /** The current states by device id. */
  type Snapshot = map<DeviceId, Fields>

  /** A device's current state; a device not yet seen has every field absent. */
  function StateOf(snap: Snapshot, id: DeviceId): Fields {
    if id in snap then snap[id] else NoFields
  }

  /** What one update does to the current states. */
  function Step(snap: Snapshot, id: DeviceId, c: Change): Snapshot {
    snap[id := Apply(StateOf(snap, id), c)]
  }

  /**
    One update adds the device if it is new, sets the updated quantity, keeps
    the device's other quantities and leaves every other device as it was.
   */
  lemma StepEffect(snap: Snapshot, id: DeviceId, c: Change)
    ensures var r := Step(snap, id, c);
      && r.Keys == snap.Keys + {id}
      && Get(r[id], c.Quantity()) == Some(c.Value())
      && (forall q :: q != c.Quantity() ==> Get(r[id], q) == Get(StateOf(snap, id), q))
      && (forall k :: k in snap && k != id ==> r[k] == snap[k])
  {
  }

  datatype StateChange = StateChange(deviceId: DeviceId, change: Change)

  /** The current states after a sequence of updates, applied in order. */
  function Replay(snap: Snapshot, changes: seq<StateChange>): Snapshot
    decreases |changes|
  {
    if changes == [] then snap
    else
      var last := changes[|changes| - 1];
      Step(Replay(snap, changes[..|changes| - 1]), last.deviceId, last.change)
  }

  /** The value of the last update of quantity `q` of device `id`, if there is one. */
  function LastValue(changes: seq<StateChange>, id: DeviceId, q: Quantity): Option<Value>
    decreases |changes|
  {
    if changes == [] then None
    else
      var last := changes[|changes| - 1];
      if last.deviceId == id && last.change.Quantity() == q then Some(last.change.Value())
      else LastValue(changes[..|changes| - 1], id, q)
  }

  /**
    Starting from an empty repository, each device's state holds, for every
    quantity, the value of the last update of that quantity of that device,
    however updates of different devices and quantities interleave; exactly
    the devices that were updated have a state.
   */
  lemma {:induction false} ReplayLastWins(changes: seq<StateChange>, id: DeviceId, q: Quantity)
    ensures id in Replay(map[], changes) <==> exists k :: 0 <= k < |changes| && changes[k].deviceId == id
    ensures Get(StateOf(Replay(map[], changes), id), q) == LastValue(changes, id, q)
  {
    ReplayKeys(changes, id);
    ReplayValue(changes, id, q);
  }

  /** Exactly the updated devices have a state. */
  lemma {:induction false} ReplayKeys(changes: seq<StateChange>, id: DeviceId)
    ensures id in Replay(map[], changes) <==> exists k :: 0 <= k < |changes| && changes[k].deviceId == id
    decreases |changes|
  {
    if changes != [] {
      var prefix := changes[..|changes| - 1];
      var last := changes[|changes| - 1];
      ReplayKeys(prefix, id);
      assert Replay(map[], changes).Keys == Replay(map[], prefix).Keys + {last.deviceId};
      assert forall k :: 0 <= k < |prefix| ==> prefix[k] == changes[k];
    }
  }

  /** Each quantity of a device holds the value of its last update. */
  lemma {:induction false} ReplayValue(changes: seq<StateChange>, id: DeviceId, q: Quantity)
    ensures Get(StateOf(Replay(map[], changes), id), q) == LastValue(changes, id, q)
    decreases |changes|
  {
    if changes != [] {
      var prefix := changes[..|changes| - 1];
      var last := changes[|changes| - 1];
      var prev := Replay(map[], prefix);
      var r := Replay(map[], changes);
      ReplayValue(prefix, id, q);
      assert r == Step(prev, last.deviceId, last.change);
      if last.deviceId != id {
        assert StateOf(r, id) == StateOf(prev, id);
      } else if last.change.Quantity() != q {
        assert Get(r[id], q) == Get(StateOf(prev, id), q);
      }
    }
  }

  // ---------------------------------------------------------------------
  // The repository object

  /** `DeviceState`: the mutable state object of one device. */
  class DeviceState {
    const deviceId: DeviceId
    var powerState: Option<PowerState>
    var percentage: Option<int>
    var currentTemperature: Option<Double>
    var targetTemperature: Option<Double>
    var windSpeed: Option<Double>
    var lightIntensity: Option<Double>
    var rainfall: Option<bool>
    var locked: Option<bool>

    /** The fields of this state, as a value. */
    function Current(): Fields
      reads this
    {
      Fields(powerState, percentage, currentTemperature, targetTemperature,
             windSpeed, lightIntensity, rainfall, locked)
    }

    /** A new state: every field starts absent. */
    constructor (deviceId: DeviceId)
      ensures this.deviceId == deviceId && Current() == NoFields
    {
      this.deviceId := deviceId;
      powerState, percentage := None, None;
      currentTemperature, targetTemperature := None, None;
      windSpeed, lightIntensity := None, None;
      rainfall, locked := None, None;
    }

    /** The field assignment of one `updateX`. */
    method Set(c: Change)
      modifies this
      ensures Current() == Apply(old(Current()), c)
    {
      match c
      case SetPowerState(p) => powerState := Some(p);
      case SetPercentage(i) => percentage := Some(i);
      case SetCurrentTemperature(t) => currentTemperature := Some(t);
      case SetTargetTemperature(t) => targetTemperature := Some(t);
      case SetWindSpeed(w) => windSpeed := Some(w);
      case SetLightIntensity(l) => lightIntensity := Some(l);
      case SetRainfall(b) => rainfall := Some(b);
      case SetLocked(b) => locked := Some(b);
    }
  }

  /**
    `FileDeviceStateRepository` (backend `CsvFile`) and
    `InfluxDbDeviceStateRepository` (backend `InfluxDb`).
   */
  class DeviceStateRepository {
    const backend: Backend
    var states: map<DeviceId, DeviceState>
    var history: seq<HistoryEntry>

    /** Each state object is filed under its own device id, so no two ids share one. */
    ghost predicate Valid()
      reads this`states
    {
      forall id :: id in states ==> states[id].deviceId == id
    }

    /** The current state of every device seen so far, as values. */
    function Snapshot(): Snapshot
      reads this`states, states.Values
    {
      map id | id in states :: states[id].Current()
    }

    constructor (backend: Backend)
      ensures Valid() && this.backend == backend
      ensures states == map[] && history == []
    {
      this.backend := backend;
      states := map[];
      history := [];
    }

    /**
      The existing state object of a device, or a new one with every field
      absent, filed under the id; no other entry of the map changes.
     */
    method GetOrCreateDeviceStatus(id: DeviceId) returns (s: DeviceState)
      requires Valid()
      modifies this
      ensures Valid() && history == old(history)
      ensures s.deviceId == id && states == old(states)[id := s]
      ensures id in old(states) ==> s == old(states[id])
      ensures id !in old(states) ==> fresh(s) && s.Current() == NoFields
      ensures Snapshot() == old(Snapshot())[id := StateOf(old(Snapshot()), id)]
      ensures s.Current() == StateOf(old(Snapshot()), id)
    {
      if id in states {
        s := states[id];
        assert states == states[id := s];
      } else {
        s := new DeviceState(id);
        states := states[id := s];
      }
    }

    /** Assigns one field of a filed state object; the other objects keep their fields. */
    method SetField(s: DeviceState, c: Change)
      requires Valid() && s.deviceId in states && states[s.deviceId] == s
      modifies s
      ensures Snapshot() == old(Snapshot())[s.deviceId := Apply(old(s.Current()), c)]
    {
      s.Set(c);
      assert forall k :: k in states && k != s.deviceId ==> states[k] != s;
    }

    /**
      The state part of one update: field X of the device's state object
      (found or created) becomes v; the same objects stay filed under the same
      ids, every other device keeps its fields and the history is untouched.
     */
    method ApplyChange(id: DeviceId, c: Change)
      requires Valid()
      modifies this, states.Values
      ensures Valid() && history == old(history)
      ensures states.Keys == old(states.Keys) + {id}
      ensures forall k :: k in old(states) ==> states[k] == old(states[k])
      ensures Snapshot() == Step(old(Snapshot()), id, c)
    {
      ghost var before := Snapshot();
      var s := GetOrCreateDeviceStatus(id);
      ghost var cur := s.Current();
      SetField(s, c);
      assert Snapshot() == before[id := Apply(cur, c)];
    }

    /**
      `updateX(id, v)` for the change `c`: field X of the device's state becomes
      v and nothing else in the states changes (the same objects stay filed
      under the same ids), one entry with only that field is appended to the
      history, and the record for the backend is returned.
     */
    method Update(id: DeviceId, c: Change, millis: int, clockMillis: int) returns (p: Persisted)
      requires Valid() && Supports(backend, c)
      modifies this, states.Values
      ensures Valid()
      ensures states.Keys == old(states.Keys) + {id}
      ensures forall k :: k in old(states) ==> states[k] == old(states[k])
      ensures Snapshot() == Step(old(Snapshot()), id, c)
      ensures history == old(history) + [EntryFor(id, millis, c)]
      ensures p == Persist(backend, id, millis, clockMillis, c)
    {
      history := history + [EntryFor(id, millis, c)];
      ApplyChange(id, c);
      p := Persist(backend, id, millis, clockMillis, c);
    }
  }
}
