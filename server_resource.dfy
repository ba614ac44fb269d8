/**
  The REST resource's three command endpoints: look the device up, check that
  the KNX service exists, write to the bus, and only after a successful write
  record the value in the state repository.
 */
module ServerResource {
  import opened Model
  import DeviceLookup
  import StateStore
  import KnxService

  /** The three fixed responses: HTTP status and entity text. */
  datatype Response = DeviceUpdated | DeviceDoesNotExist | KnxServiceNotAvailable {
    function Status(): int {
      match this
      case DeviceUpdated => 200
      case DeviceDoesNotExist => 400
      case KnxServiceNotAvailable => 500
    }

    function Entity(): string {
      match this
      case DeviceUpdated => "Device updated."
      case DeviceDoesNotExist => "Device does not exist."
      case KnxServiceNotAvailable => "KNX service not available."
    }
  }

  /** An exception that leaves an endpoint: a bad power-state text, or a failed bus write. */
  datatype Failure = InvalidPowerState(text: string) | WriteFailed

  /** How an endpoint call ends. */
  datatype Reply = Responded(response: Response) | Threw(failure: Failure)

  /** The value an endpoint sets. */
  datatype Command = PowerCommand(p: PowerState) | PercentageCommand(percentage: int) | TargetTemperatureCommand(t: Double)

  /** The enum constant name of a power state. */
  function PowerStateName(p: PowerState): string {
    match p
    case On => "ON"
    case Off => "OFF"
  }

  /** `DevicePowerState.valueOf`: exact, case-sensitive constant names; anything else throws. */
  function ValueOf(s: string): (r: Option<PowerState>)
    ensures r.Some? ==> PowerStateName(r.value) == s
  {
    if s == "ON" then Some(On) else if s == "OFF" then Some(Off) else None
  }

  /** `valueOf` inverts the constant names and accepts nothing else. */
  lemma {:induction false} ValueOfExact(s: string, p: PowerState)
    ensures ValueOf(PowerStateName(p)) == Some(p)
    ensures ValueOf(s).None? <==> s != "ON" && s != "OFF"
  {
    assert "ON" != "OFF";
  }

  /** The bus write an endpoint asks the KNX service for. */
  function WriteFor(d: Device, cmd: Command): Result<KnxService.WriteRequest, KnxService.WriteError> {
    match cmd
    case PowerCommand(p) => KnxService.WritePowerState(d, p)
    case PercentageCommand(i) => KnxService.WritePercentage(d, i)
    case TargetTemperatureCommand(t) => KnxService.WriteTargetTemperature(d, t)
  }

  /** The repository update an endpoint performs after the write. */
  function ChangeFor(cmd: Command): (c: Change)
    ensures StateStore.Supports(StateStore.CsvFile, c)
    ensures forall s :: StateStore.Supports(StateStore.InfluxDb(s), c)
  {
    match cmd
    case PowerCommand(p) => SetPowerState(p)
    case PercentageCommand(i) => SetPercentage(i)
    case TargetTemperatureCommand(t) => SetTargetTemperature(t)
  }

  /**
    What one command does: the reply, the write the bus accepted (if any) and
    the update recorded (if any). `knxAvailable` says whether the service has
    a KNX service; `busAccepts` whether the client's write returns normally.
   */
  datatype Outcome = Outcome(reply: Reply, written: Option<KnxService.WriteRequest>, update: Option<(DeviceId, Change)>)

  function Decide(devices: seq<Device>, knxAvailable: bool, busAccepts: bool, id: DeviceId, cmd: Command): Outcome {
    match DeviceLookup.FindById(devices, id)
    case None => Outcome(Responded(DeviceDoesNotExist), None, None)
    case Some(d) =>
      if !knxAvailable then Outcome(Responded(KnxServiceNotAvailable), None, None)
      else
        match WriteFor(d, cmd)
        case Failure(_) => Outcome(Threw(WriteFailed), None, None)
        case Success(w) =>
          if !busAccepts then Outcome(Threw(WriteFailed), None, None)
          else Outcome(Responded(DeviceUpdated), Some(w), Some((d.id, ChangeFor(cmd))))
  }

  /**
    An unknown device is reported before the service is consulted, whether or
    not it exists, and nothing is written or recorded.
   */
  lemma {:induction false} UnknownDeviceReportedFirst(devices: seq<Device>, knxAvailable: bool, busAccepts: bool, id: DeviceId, cmd: Command)
    requires forall i :: 0 <= i < |devices| ==> devices[i].id != id
    ensures Decide(devices, knxAvailable, busAccepts, id, cmd) == Outcome(Responded(DeviceDoesNotExist), None, None)
  {
  }

  /** Without a KNX service a known device gets "KNX service not available." and nothing changes. */
  lemma {:induction false} NoServiceNoChange(devices: seq<Device>, busAccepts: bool, id: DeviceId, cmd: Command)
    requires exists i :: 0 <= i < |devices| && devices[i].id == id
    ensures Decide(devices, false, busAccepts, id, cmd) == Outcome(Responded(KnxServiceNotAvailable), None, None)
  {
  }

  /**
    An update is recorded only after a write the bus accepted, for the
    requested device and with exactly the requested value; the reply is then
    "Device updated." and nothing else gives that reply.
   */
  lemma {:induction false} UpdateOnlyAfterWrite(devices: seq<Device>, knxAvailable: bool, busAccepts: bool, id: DeviceId, cmd: Command)
    ensures var o := Decide(devices, knxAvailable, busAccepts, id, cmd);
      && (o.update.Some? <==> o.written.Some?)
      && (o.update.Some? <==> o.reply == Responded(DeviceUpdated))
      && (o.update.Some? ==>
            && o.update.value.0 == id
            && Get(Apply(NoFields, o.update.value.1), o.update.value.1.Quantity()) == Some(CommandValue(cmd))
            && exists d :: d in devices && d.id == id && WriteFor(d, cmd) == Success(o.written.value))
  {
    var o := Decide(devices, knxAvailable, busAccepts, id, cmd);
    if o.update.Some? {
      var d := DeviceLookup.FindById(devices, id).value;
      assert d in devices && d.id == id;
    }
  }

  /** The value a command carries, tagged by type. */
  function CommandValue(cmd: Command): Value {
    match cmd
    case PowerCommand(p) => PowerValue(p)
    case PercentageCommand(i) => IntValue(i)
    case TargetTemperatureCommand(t) => DoubleValue(t)
  }

  /** A failed write (no write address, or the client throws) records nothing and escapes as an exception. */
  lemma {:induction false} FailedWriteRecordsNothing(devices: seq<Device>, busAccepts: bool, id: DeviceId, cmd: Command, d: Device)
    requires DeviceLookup.FindById(devices, id) == Some(d)
    requires WriteFor(d, cmd).Failure? || !busAccepts
    ensures Decide(devices, true, busAccepts, id, cmd) == Outcome(Threw(WriteFailed), None, None)
  {
  }

  /**
    The percentage is forwarded as given, with no range check: any integer,
    100 < p or p < 0 included, reaches the bus and the repository unchanged.
   */
  lemma {:induction false} PercentageNotRangeChecked(devices: seq<Device>, id: DeviceId, p: int, d: Device)
    requires DeviceLookup.FindById(devices, id) == Some(d) && d.gaPercentageWrite.Some?
    ensures Decide(devices, true, true, id, PercentageCommand(p)) ==
      Outcome(Responded(DeviceUpdated),
              Some(KnxService.WriteRequest(d.gaPercentageWrite.value, KnxService.Dpt5(p))),
              Some((id, SetPercentage(p))))
  {
    var i :| DeviceLookup.FirstWithId(devices, id, i) && d == devices[i];
  }

  /**
    The resource with the parts of the application service it uses: the
    device list, whether a KNX service exists, and the state repository.
   */
  class Resource {
    const devices: seq<Device>
    const knxAvailable: bool
    const repo: StateStore.DeviceStateRepository

    constructor (devices: seq<Device>, knxAvailable: bool, repo: StateStore.DeviceStateRepository)
      ensures this.devices == devices && this.knxAvailable == knxAvailable && this.repo == repo
    {
      this.devices := devices;
      this.knxAvailable := knxAvailable;
      this.repo := repo;
    }

    /**
      The common body of the three `setDevice*` endpoints. `busAccepts` is
      whether the client's write returns normally; `millis` and `clockMillis`
      are the clock readings of the repository update.
     */
    method SetDevice(id: DeviceId, cmd: Command, busAccepts: bool, millis: int, clockMillis: int)
      returns (reply: Reply, written: Option<KnxService.WriteRequest>)
      requires repo.Valid()
      modifies repo, repo.states.Values
      ensures repo.Valid()
      ensures var o := Decide(devices, knxAvailable, busAccepts, id, cmd);
        && reply == o.reply && written == o.written
        && (o.update.Some? ==>
              && repo.Snapshot() == StateStore.Step(old(repo.Snapshot()), o.update.value.0, o.update.value.1)
              && repo.history == old(repo.history) + [EntryFor(o.update.value.0, millis, o.update.value.1)])
        && (o.update.None? ==> repo.Snapshot() == old(repo.Snapshot()) && repo.history == old(repo.history))
    {
      written := None;
      var found := DeviceLookup.FindById(devices, id);
      if found.None? {
        return Responded(DeviceDoesNotExist), None;
      }
      var device := found.value;
      if !knxAvailable {
        return Responded(KnxServiceNotAvailable), None;
      }
      var write := WriteFor(device, cmd);
      if write.Failure? || !busAccepts {
        return Threw(WriteFailed), None;
      }
      written := Some(write.value);
      var c := ChangeFor(cmd);
      var _ := repo.Update(device.id, c, millis, clockMillis);
      reply := Responded(DeviceUpdated);
    }

    /**
      `setDevicePowerState`: the power-state text is converted first, so an
      invalid text throws before any lookup, write or update.
     */
    method SetDevicePowerState(idText: string, powerText: string, busAccepts: bool, millis: int, clockMillis: int)
      returns (reply: Reply, written: Option<KnxService.WriteRequest>)
      requires repo.Valid()
      modifies repo, repo.states.Values
      ensures repo.Valid()
      ensures ValueOf(powerText).None? ==>
        && reply == Threw(InvalidPowerState(powerText)) && written.None?
        && repo.Snapshot() == old(repo.Snapshot()) && repo.history == old(repo.history)
      ensures ValueOf(powerText).Some? ==>
        var o := Decide(devices, knxAvailable, busAccepts, DeviceId(idText), PowerCommand(ValueOf(powerText).value));
        && reply == o.reply && written == o.written
        && (o.update.Some? ==>
              && repo.Snapshot() == StateStore.Step(old(repo.Snapshot()), o.update.value.0, o.update.value.1)
              && repo.history == old(repo.history) + [EntryFor(o.update.value.0, millis, o.update.value.1)])
        && (o.update.None? ==> repo.Snapshot() == old(repo.Snapshot()) && repo.history == old(repo.history))
    {
      var p := ValueOf(powerText);
      if p.None? {
        return Threw(InvalidPowerState(powerText)), None;
      }
      reply, written := SetDevice(DeviceId(idText), PowerCommand(p.value), busAccepts, millis, clockMillis);
    }
  }
}
