/** The device directory view: list, add and delete devices, and toggle a
    device's status. Each device id has at most one data-simulation interval: a
    successful toggle to "active" starts it, a successful toggle to anything else
    stops it, and nothing else does (deleting a device leaves it running). */
module Devices {
  import opened Common

  /** A device as the server sends it. Only its status is changed in place here. */
  class Device {
    const id: int
    const name: string
    const kind: string
    var status: string

    constructor (id: int, name: string, kind: string, status: string)
      ensures this.id == id && this.name == name && this.kind == kind && this.status == status
    {
      this.id := id;
      this.name := name;
      this.kind := kind;
      this.status := status;
    }
  }

  /** The add-device form. */
  datatype DeviceForm = DeviceForm(name: string, kind: string, status: string)

  const BlankForm: DeviceForm := DeviceForm("", "", "inactive")

  const NotAuthenticatedAlert: string := "User not authenticated. Please log in."
  const DeletedAlert: string := "Device deleted successfully."
  const DeleteFailedAlert: string := "An error occurred while deleting the device."

  /** A stored token counts only when it is present and not empty. */
  predicate HasToken(token: Option<string>)
  {
    token.Some? && token.value != []
  }

  /** The status a toggle asks for: "active" becomes "inactive", anything else "active". */
  function Toggled(status: string): (r: string)
    ensures r == "inactive" <==> status == "active"
    ensures r == "active" <==> status != "active"
  {
    if status == "active" then "inactive" else "active"
  }

  /** Toggling twice gives back either of the two known statuses. */
  lemma ToggledTwice(status: string)
    requires status == "active" || status == "inactive"
    ensures Toggled(Toggled(status)) == status
  {
  }

  /** The devices whose id is not `id`, in their original order. */
  function WithoutId(ds: seq<Device>, id: int): (r: seq<Device>)
    ensures |r| <= |ds|
  {
    if ds == [] then []
    else (if ds[0].id == id then [] else [ds[0]]) + WithoutId(ds[1..], id)
  }

  /** Exactly the devices with another id stay. */
  lemma {:induction false} WithoutIdMembers(ds: seq<Device>, id: int, d: Device)
    ensures d in WithoutId(ds, id) <==> d in ds && d.id != id
  {
    if ds != [] {
      WithoutIdMembers(ds[1..], id, d);
      assert ds == [ds[0]] + ds[1..];
    }
  }

  /** Filtering distributes over concatenation, so the kept devices keep their order. */
  lemma {:induction false} WithoutIdConcat(a: seq<Device>, b: seq<Device>, id: int)
    ensures WithoutId(a + b, id) == WithoutId(a, id) + WithoutId(b, id)
  {
    if a == [] {
      assert a + b == b;
    } else {
      var ab := a + b;
      var head := if a[0].id == id then [] else [a[0]];
      WithoutIdConcat(a[1..], b, id);
      assert ab[0] == a[0] && ab[1..] == a[1..] + b;
      calc {
        WithoutId(ab, id);
        head + WithoutId(a[1..] + b, id);
        head + (WithoutId(a[1..], id) + WithoutId(b, id));
        (head + WithoutId(a[1..], id)) + WithoutId(b, id);
        WithoutId(a, id) + WithoutId(b, id);
      }
    }
  }

  /** When no device has the id, nothing is removed. */
  lemma {:induction false} WithoutIdAbsent(ds: seq<Device>, id: int)
    requires forall i :: 0 <= i < |ds| ==> ds[i].id != id
    ensures WithoutId(ds, id) == ds
  {
    if ds != [] {
      WithoutIdAbsent(ds[1..], id);
      assert ds == [ds[0]] + ds[1..];
    }
  }

  /** The handles recorded in an interval table. */
  function HandlesOf(m: map<int, Handle>): set<Handle>
  {
    set a | a in m :: m[a]
  }

  /** Without an entry whose handle no other entry shares, the handles lose exactly that one. */
  lemma HandlesRemove(m: map<int, Handle>, k: int)
    requires k in m
    requires forall a :: a in m && a != k ==> m[a] != m[k]
    ensures HandlesOf(m - {k}) == HandlesOf(m) - {m[k]}
  {
    var r := m - {k};
    forall h ensures h in HandlesOf(r) <==> h in HandlesOf(m) - {m[k]} {
      if h in HandlesOf(r) {
        var a :| a in r && r[a] == h;
        assert m[a] == h;
      }
      if h in HandlesOf(m) - {m[k]} {
        var a :| a in m && m[a] == h;
        assert r[a] == h;
      }
    }
  }

  /** A new entry adds exactly its handle. */
  lemma HandlesAdd(m: map<int, Handle>, k: int, h: Handle)
    requires k !in m
    ensures HandlesOf(m[k := h]) == HandlesOf(m) + {h}
  {
    var r := m[k := h];
    forall x ensures x in HandlesOf(r) <==> x in HandlesOf(m) + {h} {
      if x in HandlesOf(r) {
        var a :| a in r && r[a] == x;
        if a != k {
          assert m[a] == x;
        }
      }
      if x in HandlesOf(m) {
        var a :| a in m && m[a] == x;
        assert r[a] == x;
      }
      assert r[k] == h;
    }
  }

  /** A toggle request on its way: the device and the status it asks for. */
  datatype PendingToggle = PendingToggle(device: Device, updatedStatus: string)

  class DeviceComponent {
    var devices: seq<Device>
    var newDevice: DeviceForm
    var loadingStates: map<int, bool>
    var intervals: map<int, Handle>
    /** The host's record of the simulation intervals still running. */
    var simulations: set<Handle>
    /** The host's next interval id. */
    var nextHandle: Handle

    /** Every running simulation is recorded under exactly one device id, and
        every recorded one runs: no interval is ever lost track of. */
    ghost predicate Valid()
      reads this
    {
      && simulations == HandlesOf(intervals)
      && (forall a, b :: a in intervals && b in intervals && a != b ==> intervals[a] != intervals[b])
      && (forall h :: h in simulations ==> h < nextHandle)
    }

    constructor ()
      ensures Valid()
      ensures devices == [] && newDevice == BlankForm
      ensures loadingStates == map[] && intervals == map[] && simulations == {}
    {
      devices := [];
      newDevice := BlankForm;
      loadingStates := map[];
      intervals := map[];
      simulations := {};
      nextHandle := 1;
    }

    /** Loads the device list; without a token no request is sent. */
    method GetDevices(token: Option<string>, response: Response<seq<Device>>) returns (alert: Option<string>, requested: bool)
      modifies this`devices
      ensures requested == HasToken(token)
      ensures !requested ==> alert == Some(NotAuthenticatedAlert) && devices == old(devices)
      ensures requested && response.Received? ==> alert == None && devices == response.data
      ensures requested && response.Failed? ==>
        alert == Some("Failed to fetch devices: " + Reason(response.detail)) && devices == old(devices)
    {
      if !HasToken(token) {
        return Some(NotAuthenticatedAlert), false;
      }
      requested := true;
      match response
      case Received(data) =>
        devices := data;
        alert := None;
      case Failed(detail) =>
        alert := Some("Failed to fetch devices: " + Reason(detail));
    }

    /** Posts the form; on success appends the device the server returns and
        clears the form. Without a token nothing is sent. */
    method AddDevice(token: Option<string>, response: Response<Device>) returns (alert: Option<string>, sent: Option<DeviceForm>)
      modifies this`devices, this`newDevice
      ensures sent.Some? <==> HasToken(token)
      ensures sent.Some? ==> sent.value == old(newDevice)
      ensures sent.None? ==>
        alert == Some(NotAuthenticatedAlert) && devices == old(devices) && newDevice == old(newDevice)
      ensures sent.Some? && response.Received? ==>
        alert == None && devices == old(devices) + [response.data] && newDevice == BlankForm
      ensures sent.Some? && response.Failed? ==>
        && alert == Some("Failed to add device: " + Reason(response.detail))
        && devices == old(devices) && newDevice == old(newDevice)
    {
      if !HasToken(token) {
        return Some(NotAuthenticatedAlert), None;
      }
      sent := Some(newDevice);
      match response
      case Received(device) =>
        devices := devices + [device];
        newDevice := BlankForm;
        alert := None;
      case Failed(detail) =>
        alert := Some("Failed to add device: " + Reason(detail));
    }

    /** Deletes a device on the server; on success drops every device with that id
        from the list. Without a token nothing is sent. */
    method DeleteDevice(token: Option<string>, deviceId: int, response: Response<()>) returns (alert: Option<string>, requested: bool)
      modifies this`devices
      ensures requested == HasToken(token)
      ensures !requested ==> alert == Some(NotAuthenticatedAlert) && devices == old(devices)
      ensures requested && response.Received? ==>
        alert == Some(DeletedAlert) && devices == WithoutId(old(devices), deviceId)
      ensures requested && response.Failed? ==>
        alert == Some(DeleteFailedAlert) && devices == old(devices)
    {
      if !HasToken(token) {
        return Some(NotAuthenticatedAlert), false;
      }
      requested := true;
      match response
      case Received(_) =>
        devices := WithoutId(devices, deviceId);
        alert := Some(DeletedAlert);
      case Failed(_) =>
        alert := Some(DeleteFailedAlert);
    }

    /** Marks the device as loading and sends the request for the opposite status. */
    method ToggleDeviceStatus(device: Device) returns (pending: PendingToggle)
      modifies this`loadingStates
      ensures loadingStates == old(loadingStates)[device.id := true]
      ensures pending == PendingToggle(device, Toggled(device.status))
    {
      loadingStates := loadingStates[device.id := true];
      pending := PendingToggle(device, Toggled(device.status));
    }

    /** The answer to a toggle request. Only on success is the new status written
        and the simulation started (status "active") or stopped (otherwise);
        either way the device stops loading. */
    method OnToggleResponse(pending: PendingToggle, response: Response<()>) returns (alert: Option<string>)
      requires Valid()
      modifies this`loadingStates, this`intervals, this`simulations, this`nextHandle, pending.device`status
      ensures Valid()
      ensures loadingStates == old(loadingStates)[pending.device.id := false]
      ensures response.Received? ==>
        && alert == None
        && pending.device.status == pending.updatedStatus
        && (pending.updatedStatus == "active" ==>
              intervals == old(intervals)[pending.device.id := old(nextHandle)])
        && (pending.updatedStatus != "active" ==>
              intervals == old(intervals) - {pending.device.id})
      ensures response.Failed? ==>
        && alert == Some("Failed to update status: " + Reason(response.detail))
        && pending.device.status == old(pending.device.status)
        && intervals == old(intervals) && simulations == old(simulations)
    {
      var device := pending.device;
      match response
      case Received(_) =>
        device.status := pending.updatedStatus;
        loadingStates := loadingStates[device.id := false];
        if pending.updatedStatus == "active" {
          StartDataSimulation(device.id);
        } else {
          StopDataSimulation(device.id);
        }
        alert := None;
      case Failed(detail) =>
        loadingStates := loadingStates[device.id := false];
        alert := Some("Failed to update status: " + Reason(detail));
    }

    /** Stops the device's previous simulation, if any, and starts a new one:
        the device then has exactly one interval, and no other entry changes. */
    method StartDataSimulation(deviceId: int)
      requires Valid()
      modifies this`intervals, this`simulations, this`nextHandle
      ensures Valid()
      ensures intervals == old(intervals)[deviceId := old(nextHandle)]
      ensures deviceId in old(intervals) ==> old(intervals)[deviceId] !in simulations
      ensures simulations == (if deviceId in old(intervals) then old(simulations) - {old(intervals)[deviceId]}
                              else old(simulations)) + {old(nextHandle)}
    {
      StopDataSimulation(deviceId);
      var h := nextHandle;
      assert h !in simulations;
      if deviceId in old(intervals) {
        assert old(intervals)[deviceId] in old(simulations);
        assert old(intervals)[deviceId] < h;
      }
      HandlesAdd(intervals, deviceId, h);
      nextHandle := nextHandle + 1;
      intervals := intervals[deviceId := h];
      simulations := simulations + {h};
    }

    /** Stops and forgets the device's simulation; other devices keep theirs, and
        an id without a simulation changes nothing. */
    method StopDataSimulation(deviceId: int)
      requires Valid()
      modifies this`intervals, this`simulations
      ensures Valid()
      ensures intervals == old(intervals) - {deviceId}
      ensures simulations == if deviceId in old(intervals) then old(simulations) - {old(intervals)[deviceId]}
                             else old(simulations)
    {
      if deviceId in intervals {
        HandlesRemove(intervals, deviceId);
        simulations := simulations - {intervals[deviceId]};
        intervals := intervals - {deviceId};
      }
    }
  }
}
