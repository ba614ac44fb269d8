/**
  The two searches every device repository offers over its immutable device
  list: by id, and from a group address to the (device, role) it belongs to.
  Both are first-match searches in list order; the address search tries the
  roles of one device in a fixed order that each repository supplies.
 */
module DeviceLookup {
  import opened Model

  /** `devices[i]` is the first device with this id. */
  ghost predicate FirstWithId(devices: seq<Device>, id: DeviceId, i: int) {
    0 <= i < |devices| && devices[i].id == id &&
    forall j :: 0 <= j < i ==> devices[j].id != id
  }

  /**
    `findById`: the first device in list order whose id equals the argument,
    or nothing when no device has it.
   */
  function FindById(devices: seq<Device>, id: DeviceId): (r: Option<Device>)
    ensures r.None? <==> forall i :: 0 <= i < |devices| ==> devices[i].id != id
    ensures r.Some? ==> exists i :: FirstWithId(devices, id, i) && r.value == devices[i]
  {
    if devices == [] then None
    else if devices[0].id == id then
      assert FirstWithId(devices, id, 0);
      Some(devices[0])
    else
      var r := FindById(devices[1..], id);
      assert forall i :: FirstWithId(devices[1..], id, i) ==> FirstWithId(devices, id, i + 1);
      r
  }

  /** `order[k]` is the first role of `order` under which `d` holds `address`. */
  ghost predicate FirstRoleAt(d: Device, address: string, order: seq<Role>, k: int) {
    0 <= k < |order| && Address(d, order[k]) == Some(address) &&
    forall j :: 0 <= j < k ==> Address(d, order[j]) != Some(address)
  }

  /**
    The Kotlin `when (groupAddress)` over one device: the first role, in the
    given order, whose address equals the query. An absent address never
    equals a query, so it never matches.
   */
  function FirstRole(d: Device, address: string, order: seq<Role>): (r: Option<Role>)
    ensures r.None? <==> forall k :: 0 <= k < |order| ==> Address(d, order[k]) != Some(address)
    ensures r.Some? ==> exists k :: FirstRoleAt(d, address, order, k) && order[k] == r.value
  {
    if order == [] then None
    else if Address(d, order[0]) == Some(address) then
      assert FirstRoleAt(d, address, order, 0);
      Some(order[0])
    else
      var r := FirstRole(d, address, order[1..]);
      assert forall k :: FirstRoleAt(d, address, order[1..], k) ==> FirstRoleAt(d, address, order, k + 1);
      r
  }

  /** `devices[i]` is the first device holding `address` under some role of `order`. */
  ghost predicate FirstHolderAt(devices: seq<Device>, address: string, order: seq<Role>, i: int) {
    0 <= i < |devices| && FirstRole(devices[i], address, order).Some? &&
    forall j :: 0 <= j < i ==> FirstRole(devices[j], address, order).None?
  }

  /**
    `findDeviceAndType`: the first device in list order that holds the address
    under any of the roles, paired with the first such role of that device. A
    later device is never chosen when an earlier one matches, and the result is
    absent exactly when no device holds the address under any of the roles.
   */
  function FindDeviceAndType(devices: seq<Device>, address: string, order: seq<Role>): (r: Option<(Device, Role)>)
    ensures r.None? <==>
      forall i, k :: 0 <= i < |devices| && 0 <= k < |order| ==> Address(devices[i], order[k]) != Some(address)
    ensures r.Some? ==>
      exists i :: FirstHolderAt(devices, address, order, i) &&
        r.value == (devices[i], FirstRole(devices[i], address, order).value)
  {
    if devices == [] then None
    else
      var first := FirstRole(devices[0], address, order);
      if first.Some? then
        assert FirstHolderAt(devices, address, order, 0);
        Some((devices[0], first.value))
      else
        FindDeviceAndTypeTail(devices, address, order);
        FindDeviceAndType(devices[1..], address, order)
  }

  /** When the first device does not hold the address, the search goes on in the rest of the list. */
  lemma FindDeviceAndTypeTail(devices: seq<Device>, address: string, order: seq<Role>)
    requires devices != [] && FirstRole(devices[0], address, order).None?
    ensures forall i :: FirstHolderAt(devices[1..], address, order, i) ==>
      FirstHolderAt(devices, address, order, i + 1) && devices[1..][i] == devices[i + 1]
    ensures (forall i, k :: 0 <= i < |devices| && 0 <= k < |order| ==> Address(devices[i], order[k]) != Some(address)) <==>
      (forall i, k :: 0 <= i < |devices| - 1 && 0 <= k < |order| ==> Address(devices[1..][i], order[k]) != Some(address))
  {
    forall i | FirstHolderAt(devices[1..], address, order, i)
      ensures FirstHolderAt(devices, address, order, i + 1)
    {
      forall j | 0 <= j < i + 1
        ensures FirstRole(devices[j], address, order).None?
      {
        if j > 0 {
          assert devices[j] == devices[1..][j - 1];
        }
      }
    }
    assert forall i :: 1 <= i < |devices| ==> devices[i] == devices[1..][i - 1];
  }

  /**
    Soundness: a resolved pair is a device of the list whose address for the
    returned role, one of the roles searched, is exactly the query.
   */
  lemma {:induction false} FindDeviceAndTypeSound(devices: seq<Device>, address: string, order: seq<Role>)
    requires FindDeviceAndType(devices, address, order).Some?
    ensures var (d, role) := FindDeviceAndType(devices, address, order).value;
      d in devices && role in order && Address(d, role) == Some(address)
  {
    var r := FindDeviceAndType(devices, address, order);
    var i :| FirstHolderAt(devices, address, order, i) &&
      r.value == (devices[i], FirstRole(devices[i], address, order).value);
    var k :| FirstRoleAt(devices[i], address, order, k) && order[k] == r.value.1;
  }
}

/** The repository loaded from `devices.json` and its eleven-role address search. */
module FileDeviceRepository {
  import opened Model
  import DeviceLookup

  /** Roles in the order `findDeviceAndType` tries them. */
  const RoleOrder: seq<Role> := [
    PowerStateWrite, PowerStateStatus, PercentageWrite, PercentageStatus,
    CurrentTemperature, TargetTemperatureWrite, TargetTemperatureStatus,
    WindSpeed, LightIntensity, Rainfall, LockObject]

  /**
    The device list after construction: a missing file or a file that does not
    parse gives an empty list, never a failed construction.
   */
  function Load(file: ConfigFile<seq<Device>>): (devices: seq<Device>)
    ensures file.Parsed? ==> devices == file.value
    ensures !file.Parsed? ==> devices == []
  {
    match file
    case Parsed(ds) => ds
    case _ => []
  }

  function FindDeviceAndType(devices: seq<Device>, address: string): Option<(Device, Role)> {
    DeviceLookup.FindDeviceAndType(devices, address, RoleOrder)
  }

  /**
    A device whose write and status addresses for power coincide resolves that
    address to the write role, which comes first in the order: in any list
    where it is the first device holding the address, the search returns it
    with the write role, never with the status role.
   */
  lemma {:induction false} SharedPowerAddressResolvesToWrite(devices: seq<Device>, i: int, address: string)
    requires 0 <= i < |devices|
    requires devices[i].gaPowerStateWrite == Some(address) && devices[i].gaPowerStateStatus == Some(address)
    requires forall j, k :: 0 <= j < i && 0 <= k < |RoleOrder| ==> Address(devices[j], RoleOrder[k]) != Some(address)
    ensures FindDeviceAndType(devices, address) == Some((devices[i], PowerStateWrite))
  {
    var d := devices[i];
    assert Address(d, RoleOrder[0]) == Some(address);
    assert DeviceLookup.FirstRoleAt(d, address, RoleOrder, 0);
    assert DeviceLookup.FirstRole(d, address, RoleOrder) == Some(PowerStateWrite);
    var r := DeviceLookup.FindDeviceAndType(devices, address, RoleOrder);
    assert r.Some?;
    var h :| DeviceLookup.FirstHolderAt(devices, address, RoleOrder, h) &&
      r.value == (devices[h], DeviceLookup.FirstRole(devices[h], address, RoleOrder).value);
    assert h == i;
  }
}

/**
  The older repository: the same load (without the parse-failure fallback)
  and a six-role address search.
 */
module CsvDeviceRepository {
  import opened Model
  import DeviceLookup

  /** Roles in the order `findDeviceAndType` tries them. */
  const RoleOrder: seq<Role> := [
    PowerStateWrite, PowerStateStatus, PercentageWrite, PercentageStatus,
    CurrentTemperature, TargetTemperature]

  datatype LoadError = ParseFailure

  /**
    A missing file gives an empty list; a parse failure is not caught and
    escapes from construction.
   */
  function Load(file: ConfigFile<seq<Device>>): (r: Result<seq<Device>, LoadError>)
    ensures file.Missing? ==> r == Success([])
    ensures file.Unparsable? ==> r.Failure?
    ensures file.Parsed? ==> r == Success(file.value)
  {
    match file
    case Missing => Success([])
    case Unparsable => Failure(ParseFailure)
    case Parsed(ds) => Success(ds)
  }

  function FindDeviceAndType(devices: seq<Device>, address: string): Option<(Device, Role)> {
    DeviceLookup.FindDeviceAndType(devices, address, RoleOrder)
  }

  /**
    An address that devices use only for wind speed, light intensity,
    rainfall, lock or the split target-temperature roles is never resolved.
   */
  lemma {:induction false} OtherRolesNeverResolve(devices: seq<Device>, address: string)
    requires forall i :: 0 <= i < |devices| ==>
      forall role :: Address(devices[i], role) == Some(address) ==> role !in RoleOrder
    ensures FindDeviceAndType(devices, address).None?
  {
    forall i, k | 0 <= i < |devices| && 0 <= k < |RoleOrder|
      ensures Address(devices[i], RoleOrder[k]) != Some(address)
    {
      assert RoleOrder[k] in RoleOrder;
    }
  }

  /** A resolved role is always one of the six the older search knows. */
  lemma {:induction false} ResolvedRoleIsCsvRole(devices: seq<Device>, address: string)
    requires FindDeviceAndType(devices, address).Some?
    ensures FindDeviceAndType(devices, address).value.1 in
      {PowerStateWrite, PowerStateStatus, PercentageWrite, PercentageStatus, CurrentTemperature, TargetTemperature}
  {
    DeviceLookup.FindDeviceAndTypeSound(devices, address, RoleOrder);
  }
}
