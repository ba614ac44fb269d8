/**
  The KNX side of the server: the group monitor that turns incoming bus
  telegrams into state updates (and webhook calls), the read requests sent to
  resynchronise every device, and the three write requests the REST layer
  issues. The bus client and the datapoint codecs of the KNX library are not
  modelled: decoders are parameters, writes and reads are returned as values.
 */
module KnxService {
  import opened Model
  import DeviceLookup
  import FileDeviceRepository
  import StateStore
  import Webhooks

  /** Timeout of every blocking read request, in milliseconds. */
  const ReadTimeoutMs: int := 3000

  /**
    An incoming KNX/IP body: a tunneling request carries a destination group
    address and a payload; every other service type is `OtherBody`.
   */
  datatype Body = TunnelingRequest(destination: string, data: seq<bv8>) | OtherBody

  /**
    The library's decoders for DPT 1.001 (boolean), DPT 5.001 (scaling) and
    DPT 9.001 (2-octet float); `None` is the incompatible-bytes exception.
   */
  datatype Codec = Codec(
    dpt1: seq<bv8> -> Option<bool>,
    dpt5: seq<bv8> -> Option<int>,
    dpt9: seq<bv8> -> Option<Double>)

  datatype IgnoreReason = NotTunneling | ReadRequestBody | UnknownAddress | UnhandledRole(role: Role)

  /**
    What the group monitor does with one body: nothing, one state change (and
    whether webhooks fire), or a logged decode failure naming the expected DPT.
   */
  datatype Action =
    | Ignore(reason: IgnoreReason)
    | Record(deviceId: DeviceId, role: Role, change: Change, trigger: bool)
    | WrongType(address: string, expected: string)

  /** The five roles whose telegrams the monitor handles. */
  predicate Handled(role: Role) {
    role in {PowerStateStatus, PercentageStatus, CurrentTemperature, TargetTemperature, LockObject}
  }

  /** The datapoint type a handled role's payload must have. */
  function ExpectedDpt(role: Role): string {
    match role
    case PowerStateStatus => "DPT1"
    case LockObject => "DPT1"
    case PercentageStatus => "DPT5"
    case _ => "DPT9"
  }

  /**
    `c` is the change a telegram for `role` with payload `data` stands for:
    the role's decoder accepts the payload and `c` sets the role's quantity to
    the decoded value (a decoded `true` is power ON).
   */
  predicate Decodes(codec: Codec, role: Role, data: seq<bv8>, c: Change) {
    || (role == PowerStateStatus && c.SetPowerState? && codec.dpt1(data) == Some(c.powerState == On))
    || (role == PercentageStatus && c.SetPercentage? && codec.dpt5(data) == Some(c.percentage))
    || (role == CurrentTemperature && c.SetCurrentTemperature? && codec.dpt9(data) == Some(c.currentTemperature))
    || (role == TargetTemperature && c.SetTargetTemperature? && codec.dpt9(data) == Some(c.targetTemperature))
    || (role == LockObject && c.SetLocked? && codec.dpt1(data) == Some(c.locked))
  }

  /** The decoder of a handled role accepts the payload. */
  predicate Accepts(codec: Codec, role: Role, data: seq<bv8>) {
    match role
    case PowerStateStatus => codec.dpt1(data).Some?
    case LockObject => codec.dpt1(data).Some?
    case PercentageStatus => codec.dpt5(data).Some?
    case _ => codec.dpt9(data).Some?
  }

  /** A handled role's decoder accepts a payload exactly when the payload stands for some change. */
  lemma {:induction false} AcceptsDecodes(codec: Codec, role: Role, data: seq<bv8>)
    requires Handled(role)
    ensures Accepts(codec, role, data) <==> exists c :: Decodes(codec, role, data, c)
  {
    if Accepts(codec, role, data) {
      match role
      case PowerStateStatus => assert Decodes(codec, role, data, SetPowerState(if codec.dpt1(data).value then On else Off));
      case PercentageStatus => assert Decodes(codec, role, data, SetPercentage(codec.dpt5(data).value));
      case CurrentTemperature => assert Decodes(codec, role, data, SetCurrentTemperature(codec.dpt9(data).value));
      case TargetTemperature => assert Decodes(codec, role, data, SetTargetTemperature(codec.dpt9(data).value));
      case LockObject => assert Decodes(codec, role, data, SetLocked(codec.dpt1(data).value));
    }
  }

  /** `handleItem` once the device and role are known: the `when (type)` and the `handle*Item` decoders. */
  function HandleItem(codec: Codec, id: DeviceId, address: string, role: Role, data: seq<bv8>): Action {
    match role
    case PowerStateStatus =>
      (match codec.dpt1(data)
       case None => WrongType(address, "DPT1")
       case Some(v) => Record(id, role, SetPowerState(if v then On else Off), v))
    case PercentageStatus =>
      (match codec.dpt5(data)
       case None => WrongType(address, "DPT5")
       case Some(p) => Record(id, role, SetPercentage(p), false))
    case CurrentTemperature =>
      (match codec.dpt9(data)
       case None => WrongType(address, "DPT9")
       case Some(t) => Record(id, role, SetCurrentTemperature(t), false))
    case TargetTemperature =>
      (match codec.dpt9(data)
       case None => WrongType(address, "DPT9")
       case Some(t) => Record(id, role, SetTargetTemperature(t), false))
    case LockObject =>
      (match codec.dpt1(data)
       case None => WrongType(address, "DPT1")
       case Some(b) => Record(id, role, SetLocked(b), false))
    case _ => Ignore(UnhandledRole(role))
  }

  /**
    `onIncomingBody` and `handleItem` as a decision: filter out other service
    types and read requests (empty payload), resolve the destination through
    the device repository's search (`order` is that repository's role order),
    then dispatch on the role.
   */
  function Route(devices: seq<Device>, order: seq<Role>, codec: Codec, body: Body): Action {
    match body
    case OtherBody => Ignore(NotTunneling)
    case TunnelingRequest(address, data) =>
      if |data| == 0 then Ignore(ReadRequestBody)
      else
        match DeviceLookup.FindDeviceAndType(devices, address, order)
        case None => Ignore(UnknownAddress)
        case Some((d, role)) => HandleItem(codec, d.id, address, role, data)
  }

  /** A change `handleItem` records is the role's decoded value, for the given device and role. */
  lemma {:induction false} HandleItemRecordSound(codec: Codec, id: DeviceId, address: string, role: Role, data: seq<bv8>)
    requires HandleItem(codec, id, address, role, data).Record?
    ensures var a := HandleItem(codec, id, address, role, data);
      && a.deviceId == id && a.role == role && Handled(role)
      && Decodes(codec, role, data, a.change)
      && (a.trigger <==> a.change == SetPowerState(On))
  {
    if role == PowerStateStatus {
      var v := codec.dpt1(data).value;
      assert HandleItem(codec, id, address, role, data) == Record(id, role, SetPowerState(if v then On else Off), v);
    }
  }

  /**
    A recorded change comes from a non-empty tunneling request whose
    destination is the device's address for a handled role among those
    searched; the change is what that role's decoder gives, and webhooks fire
    exactly when it is power ON.
   */
  lemma {:induction false} RouteRecordSound(devices: seq<Device>, order: seq<Role>, codec: Codec, body: Body)
    requires Route(devices, order, codec, body).Record?
    ensures var a := Route(devices, order, codec, body);
      && body.TunnelingRequest? && |body.data| > 0
      && (exists d :: d in devices && d.id == a.deviceId && Address(d, a.role) == Some(body.destination))
      && a.role in order && Handled(a.role)
      && Decodes(codec, a.role, body.data, a.change)
      && (a.trigger <==> a.change == SetPowerState(On))
  {
    var found := DeviceLookup.FindDeviceAndType(devices, body.destination, order);
    DeviceLookup.FindDeviceAndTypeSound(devices, body.destination, order);
    var (d, role) := found.value;
    assert Route(devices, order, codec, body) == HandleItem(codec, d.id, body.destination, role, body.data);
    HandleItemRecordSound(codec, d.id, body.destination, role, body.data);
    assert d in devices;
  }

  /**
    Everything that is not recorded is one of the source's early returns or
    caught exceptions: another body type, a read request, an address no
    device holds, a role the monitor does not handle, or a payload the role's
    decoder rejects.
   */
  lemma {:induction false} RouteIgnores(devices: seq<Device>, order: seq<Role>, codec: Codec, address: string, data: seq<bv8>)
    ensures Route(devices, order, codec, OtherBody) == Ignore(NotTunneling)
    ensures Route(devices, order, codec, TunnelingRequest(address, [])) == Ignore(ReadRequestBody)
    ensures |data| > 0 && DeviceLookup.FindDeviceAndType(devices, address, order).None? ==>
      Route(devices, order, codec, TunnelingRequest(address, data)) == Ignore(UnknownAddress)
    ensures |data| > 0 && DeviceLookup.FindDeviceAndType(devices, address, order).Some? ==>
      var role := DeviceLookup.FindDeviceAndType(devices, address, order).value.1;
      && (!Handled(role) ==> Route(devices, order, codec, TunnelingRequest(address, data)) == Ignore(UnhandledRole(role)))
      && (Handled(role) && !Accepts(codec, role, data) ==>
            Route(devices, order, codec, TunnelingRequest(address, data)) == WrongType(address, ExpectedDpt(role)))
  {
    var found := DeviceLookup.FindDeviceAndType(devices, address, order);
    if |data| > 0 && found.Some? {
      var (d, role) := found.value;
      assert Route(devices, order, codec, TunnelingRequest(address, data)) == HandleItem(codec, d.id, address, role, data);
      HandleItemIgnores(codec, d.id, address, role, data);
    }
  }

  /** `handleItem` ignores a role it does not handle and reports a payload the role's decoder rejects. */
  lemma {:induction false} HandleItemIgnores(codec: Codec, id: DeviceId, address: string, role: Role, data: seq<bv8>)
    ensures !Handled(role) ==> HandleItem(codec, id, address, role, data) == Ignore(UnhandledRole(role))
    ensures Handled(role) && !Accepts(codec, role, data) ==>
      HandleItem(codec, id, address, role, data) == WrongType(address, ExpectedDpt(role))
  {
    match role
    case PowerStateStatus =>
    case PercentageStatus =>
    case CurrentTemperature =>
    case TargetTemperature =>
    case LockObject =>
    case _ =>
  }

  /**
    Completeness: a non-empty telegram resolved to a handled role whose
    decoder accepts the payload is recorded for the resolved device.
   */
  lemma {:induction false} RouteRecords(devices: seq<Device>, order: seq<Role>, codec: Codec, address: string, data: seq<bv8>, c: Change)
    requires |data| > 0 && DeviceLookup.FindDeviceAndType(devices, address, order).Some?
    requires Decodes(codec, DeviceLookup.FindDeviceAndType(devices, address, order).value.1, data, c)
    ensures var (d, role) := DeviceLookup.FindDeviceAndType(devices, address, order).value;
      Route(devices, order, codec, TunnelingRequest(address, data)) == Record(d.id, role, c, c == SetPowerState(On))
  {
    var (d, role) := DeviceLookup.FindDeviceAndType(devices, address, order).value;
    assert Route(devices, order, codec, TunnelingRequest(address, data)) == HandleItem(codec, d.id, address, role, data);
    HandleItemRecords(codec, d.id, address, role, data, c);
  }

  /** `handleItem` records the decoded change for the given device and role. */
  lemma {:induction false} HandleItemRecords(codec: Codec, id: DeviceId, address: string, role: Role, data: seq<bv8>, c: Change)
    requires Decodes(codec, role, data, c)
    ensures HandleItem(codec, id, address, role, data) == Record(id, role, c, c == SetPowerState(On))
  {
    if role == PowerStateStatus {
      assert c.powerState == On || c.powerState == Off;
    }
  }

  /** Every change the monitor records is one both state repositories implement. */
  lemma {:induction false} RouteSupported(devices: seq<Device>, order: seq<Role>, codec: Codec, body: Body, backend: StateStore.Backend)
    requires Route(devices, order, codec, body).Record?
    ensures StateStore.Supports(backend, Route(devices, order, codec, body).change)
  {
    RouteRecordSound(devices, order, codec, body);
  }

  /**
    With the device file's eleven-role search, a target temperature is never
    recorded from the bus, whatever the devices, payload or decoder: the
    handled role `TargetTemperature` is not searched, and an address that
    resolves to the searched `TargetTemperatureStatus` is ignored as an
    unhandled role. The older search resolves `gaTargetTemperature` to the
    handled role instead.
   */
  lemma {:induction false} TargetTemperatureStatusIsIgnored(devices: seq<Device>, codec: Codec, body: Body)
    ensures var a := Route(devices, FileDeviceRepository.RoleOrder, codec, body);
      a.Record? ==> !a.change.SetTargetTemperature? && a.role != TargetTemperatureStatus
    ensures body.TunnelingRequest? && |body.data| > 0 ==>
      var found := DeviceLookup.FindDeviceAndType(devices, body.destination, FileDeviceRepository.RoleOrder);
      found.Some? && found.value.1 == TargetTemperatureStatus ==>
        Route(devices, FileDeviceRepository.RoleOrder, codec, body) == Ignore(UnhandledRole(TargetTemperatureStatus))
  {
    FileRecordsNoTargetTemperature(devices, codec, body);
    StatusRoleIgnored(devices, FileDeviceRepository.RoleOrder, codec, body);
  }

  /** A change recorded under the device file's search is never a target temperature. */
  lemma {:induction false} FileRecordsNoTargetTemperature(devices: seq<Device>, codec: Codec, body: Body)
    ensures var a := Route(devices, FileDeviceRepository.RoleOrder, codec, body);
      a.Record? ==> !a.change.SetTargetTemperature? && a.role != TargetTemperatureStatus
  {
    var order := FileDeviceRepository.RoleOrder;
    if Route(devices, order, codec, body).Record? {
      var found := DeviceLookup.FindDeviceAndType(devices, body.destination, order);
      var (d, role) := found.value;
      assert Route(devices, order, codec, body) == HandleItem(codec, d.id, body.destination, role, body.data);
      HandleItemRecordSound(codec, d.id, body.destination, role, body.data);
      DeviceLookup.FindDeviceAndTypeSound(devices, body.destination, order);
      FileOrderLacksTargetTemperature();
    }
  }

  /** A telegram whose address resolves to `TargetTemperatureStatus` is ignored as an unhandled role. */
  lemma {:induction false} StatusRoleIgnored(devices: seq<Device>, order: seq<Role>, codec: Codec, body: Body)
    ensures body.TunnelingRequest? && |body.data| > 0 ==>
      var found := DeviceLookup.FindDeviceAndType(devices, body.destination, order);
      found.Some? && found.value.1 == TargetTemperatureStatus ==>
        Route(devices, order, codec, body) == Ignore(UnhandledRole(TargetTemperatureStatus))
  {
    if body.TunnelingRequest? && |body.data| > 0 {
      var found := DeviceLookup.FindDeviceAndType(devices, body.destination, order);
      if found.Some? && found.value.1 == TargetTemperatureStatus {
        assert Route(devices, order, codec, body) ==
          HandleItem(codec, found.value.0.id, body.destination, TargetTemperatureStatus, body.data);
      }
    }
  }

  /** The device file's search never tries the role the monitor handles for target temperatures. */
  lemma FileOrderLacksTargetTemperature()
    ensures TargetTemperature !in FileDeviceRepository.RoleOrder
  {
  }

  // ---------------------------------------------------------------------
  // The group monitor plugin

  /**
    `GroupMonitorPlugin`: the observer that the KNX client calls for every
    incoming body, wired to the device list, the state repository and the
    webhooks.
   */
  class GroupMonitor {
    const devices: seq<Device>
    const order: seq<Role>
    const codec: Codec
    const webhooks: set<Webhook>
    const repo: StateStore.DeviceStateRepository

    constructor (devices: seq<Device>, order: seq<Role>, codec: Codec, webhooks: set<Webhook>, repo: StateStore.DeviceStateRepository)
      ensures this.devices == devices && this.order == order && this.codec == codec
      ensures this.webhooks == webhooks && this.repo == repo
    {
      this.devices := devices;
      this.order := order;
      this.codec := codec;
      this.webhooks := webhooks;
      this.repo := repo;
    }

    /**
      `onIncomingBody`: a recorded change is applied to the state repository
      (state, history entry, persisted record) and then, for power ON, the
      device's webhooks are called; anything else changes nothing and calls
      nothing. `call` gives the outcome of each webhook call, `millis` and
      `clockMillis` the clock readings of the repository update.
     */
    method OnIncomingBody(body: Body, millis: int, clockMillis: int, call: Webhook -> Webhooks.HttpOutcome)
      returns (action: Action, persisted: Option<StateStore.Persisted>, calls: seq<Webhook>)
      requires repo.Valid()
      modifies repo, repo.states.Values
      ensures repo.Valid()
      ensures action == Route(devices, order, codec, body)
      ensures action.Record? ==>
        && repo.Snapshot() == StateStore.Step(old(repo.Snapshot()), action.deviceId, action.change)
        && repo.history == old(repo.history) + [EntryFor(action.deviceId, millis, action.change)]
        && persisted == Some(StateStore.Persist(repo.backend, action.deviceId, millis, clockMillis, action.change))
      ensures !action.Record? ==>
        repo.Snapshot() == old(repo.Snapshot()) && repo.history == old(repo.history) && persisted.None?
      ensures action.Record? && action.trigger ==> Webhooks.Triggered(webhooks, action.deviceId, call, calls)
      ensures !(action.Record? && action.trigger) ==> calls == []
    {
      action := Route(devices, order, codec, body);
      persisted := None;
      calls := [];
      if action.Record? {
        RouteSupported(devices, order, codec, body, repo.backend);
        var p := repo.Update(action.deviceId, action.change, millis, clockMillis);
        persisted := Some(p);
        if action.trigger {
          var aborted;
          calls, aborted := Webhooks.TriggerWebhook(webhooks, action.deviceId, call);
        }
      }
    }
  }

  // ---------------------------------------------------------------------
  // Read requests

  /** A blocking group read sent to resynchronise one address. */
  datatype ReadRequest = ReadRequest(address: string, timeoutMs: int)

  /** The roles `readAllDeviceStates` reads, in the order it reads them. */
  const ReadRoles: seq<Role> := [PowerStateStatus, PercentageStatus, CurrentTemperature, TargetTemperature, LockObject]

  /** The read of one role's address, when the device has one. */
  function ReadOf(d: Device, role: Role): seq<ReadRequest> {
    if Address(d, role).Some? then [ReadRequest(Address(d, role).value, ReadTimeoutMs)] else []
  }

  /** The reads for one device: one per present address among the read roles, in that order. */
  function DeviceReads(d: Device): seq<ReadRequest> {
    ReadOf(d, PowerStateStatus) + ReadOf(d, PercentageStatus) + ReadOf(d, CurrentTemperature) +
    ReadOf(d, TargetTemperature) + ReadOf(d, LockObject)
  }

  /** The reads for a device list, devices in list order. */
  function ReadRequests(devices: seq<Device>): seq<ReadRequest> {
    if devices == [] then [] else ReadRequests(devices[..|devices| - 1]) + DeviceReads(devices[|devices| - 1])
  }

  /** `d` holds `address` under one of the read roles. */
  predicate HoldsReadAddress(d: Device, address: string) {
    exists role :: role in ReadRoles && Address(d, role) == Some(address)
  }

  /** A device's reads are exactly its present read-role addresses, each with the fixed timeout. */
  lemma {:induction false} DeviceReadsExact(d: Device, r: ReadRequest)
    ensures r in DeviceReads(d) <==> r.timeoutMs == ReadTimeoutMs && HoldsReadAddress(d, r.address)
  {
    assert ReadRoles == [PowerStateStatus, PercentageStatus, CurrentTemperature, TargetTemperature, LockObject];
    if r in DeviceReads(d) {
      var role :| role in ReadRoles && r in ReadOf(d, role);
      assert Address(d, role) == Some(r.address);
    }
    if r.timeoutMs == ReadTimeoutMs && HoldsReadAddress(d, r.address) {
      var role :| role in ReadRoles && Address(d, role) == Some(r.address);
      assert r in ReadOf(d, role);
    }
  }

  /** Devices are visited in list order: the reads of a concatenation are the concatenated reads. */
  lemma {:induction false} ReadRequestsAppend(a: seq<Device>, b: seq<Device>)
    ensures ReadRequests(a + b) == ReadRequests(a) + ReadRequests(b)
    decreases |b|
  {
    if b != [] {
      var b' := b[..|b| - 1];
      assert (a + b)[..|a + b| - 1] == a + b';
      ReadRequestsAppend(a, b');
    } else {
      assert a + b == a;
    }
  }

  /**
    Sound and complete: a request is sent exactly when some device holds its
    address under a read role, always with the fixed timeout; no write, wind,
    light or rainfall address is read on its own account.
   */
  lemma {:induction false} ReadRequestsExact(devices: seq<Device>, r: ReadRequest)
    ensures r in ReadRequests(devices) <==>
      r.timeoutMs == ReadTimeoutMs && exists i :: 0 <= i < |devices| && HoldsReadAddress(devices[i], r.address)
    decreases |devices|
  {
    if devices != [] {
      var init := devices[..|devices| - 1];
      var last := devices[|devices| - 1];
      assert ReadRequests(devices) == ReadRequests(init) + DeviceReads(last);
      ReadRequestsExact(init, r);
      DeviceReadsExact(last, r);
      assert forall i :: 0 <= i < |init| ==> init[i] == devices[i];
      if exists i :: 0 <= i < |devices| && HoldsReadAddress(devices[i], r.address) {
        var i :| 0 <= i < |devices| && HoldsReadAddress(devices[i], r.address);
        assert i < |init| ==> HoldsReadAddress(init[i], r.address);
      }
    }
  }

  /** One more device appends that device's reads. */
  lemma {:induction false} ReadRequestsStep(devices: seq<Device>, i: int)
    requires 0 <= i < |devices|
    ensures ReadRequests(devices[..i + 1]) == ReadRequests(devices[..i]) + DeviceReads(devices[i])
  {
    assert devices[..i + 1][..i] == devices[..i];
  }

  /** The five guarded reads `readAllDeviceStates` sends for one device. */
  method ReadDevice(d: Device) returns (sent: seq<ReadRequest>)
    ensures sent == DeviceReads(d)
  {
    sent := [];
    if d.gaPowerStateStatus.Some? {
      sent := sent + [ReadRequest(d.gaPowerStateStatus.value, ReadTimeoutMs)];
    }
    ghost var expected := ReadOf(d, PowerStateStatus);
    assert sent == expected;
    if d.gaPercentageStatus.Some? {
      sent := sent + [ReadRequest(d.gaPercentageStatus.value, ReadTimeoutMs)];
    }
    expected := expected + ReadOf(d, PercentageStatus);
    assert sent == expected;
    if d.gaCurrentTemperature.Some? {
      sent := sent + [ReadRequest(d.gaCurrentTemperature.value, ReadTimeoutMs)];
    }
    expected := expected + ReadOf(d, CurrentTemperature);
    assert sent == expected;
    if d.gaTargetTemperature.Some? {
      sent := sent + [ReadRequest(d.gaTargetTemperature.value, ReadTimeoutMs)];
    }
    expected := expected + ReadOf(d, TargetTemperature);
    assert sent == expected;
    if d.gaLockObject.Some? {
      sent := sent + [ReadRequest(d.gaLockObject.value, ReadTimeoutMs)];
    }
    expected := expected + ReadOf(d, LockObject);
    assert sent == expected;
  }

  /**
    `readAllDeviceStates`: walks the device list and issues the reads of each
    device in turn; the result is the requests in the order they are sent.
   */
  method ReadAllDeviceStates(devices: seq<Device>) returns (requests: seq<ReadRequest>)
    ensures requests == ReadRequests(devices)
  {
    requests := [];
    for i := 0 to |devices|
      invariant requests == ReadRequests(devices[..i])
    {
      var sent := ReadDevice(devices[i]);
      requests := requests + sent;
      ReadRequestsStep(devices, i);
    }
    assert devices[..|devices|] == devices;
  }

  // ---------------------------------------------------------------------
  // Write requests

  /** The datapoint value a write request carries. */
  datatype DptValue = Dpt1(b: bool) | Dpt5(i: int) | Dpt9(t: Double)

  /** A group write handed to the KNX client. */
  datatype WriteRequest = WriteRequest(address: string, value: DptValue)

  /** `GroupAddress.of` is given an absent address and throws. */
  datatype WriteError = NoAddress

  /** `writePowerState`: `true` to the power-write address exactly for ON. */
  function WritePowerState(d: Device, p: PowerState): (r: Result<WriteRequest, WriteError>)
    ensures r.Success? <==> d.gaPowerStateWrite.Some?
    ensures r.Success? ==> r.value.address == d.gaPowerStateWrite.value && r.value.value.Dpt1?
    ensures r.Success? ==> (r.value.value.b <==> p == On)
  {
    match d.gaPowerStateWrite
    case None => Failure(NoAddress)
    case Some(a) => Success(WriteRequest(a, Dpt1(p == On)))
  }

  /** `writePercentage`: the percentage, unchanged, to the percentage-write address. */
  function WritePercentage(d: Device, percentage: int): (r: Result<WriteRequest, WriteError>)
    ensures r.Success? <==> d.gaPercentageWrite.Some?
    ensures r.Success? ==> r.value == WriteRequest(d.gaPercentageWrite.value, Dpt5(percentage))
  {
    match d.gaPercentageWrite
    case None => Failure(NoAddress)
    case Some(a) => Success(WriteRequest(a, Dpt5(percentage)))
  }

  /**
    `writeTargetTemperature`: the temperature, unchanged, to `gaTargetTemperature`
    (not to `gaTargetTemperatureWrite`).
   */
  function WriteTargetTemperature(d: Device, temperature: Double): (r: Result<WriteRequest, WriteError>)
    ensures r.Success? <==> d.gaTargetTemperature.Some?
    ensures r.Success? ==> r.value == WriteRequest(d.gaTargetTemperature.value, Dpt9(temperature))
  {
    match d.gaTargetTemperature
    case None => Failure(NoAddress)
    case Some(a) => Success(WriteRequest(a, Dpt9(temperature)))
  }
}
