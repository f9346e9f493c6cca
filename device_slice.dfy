/**
 * The wearable-device state: the list of connected devices, the selected id, and the status of
 * a connection attempt. Every reducer that looks a device up acts on the first one with that id.
 */
module DeviceSlice {
  import opened Wrappers

  datatype DeviceType = AppleWatch | Garmin | Fitbit

  datatype Device = Device(id: string, name: string, deviceType: DeviceType, isConnected: bool, lastSync: Option<string>)

  predicate UniqueIds(ds: seq<Device>) {
    forall i, j :: 0 <= i < j < |ds| ==> ds[i].id != ds[j].id
  }

  /** The index that `find(d => d.id === id)` returns, or -1 when no device has the id. */
  function FindIndex(ds: seq<Device>, id: string): (k: int)
    ensures -1 <= k < |ds|
    ensures k >= 0 ==> ds[k].id == id && forall j :: 0 <= j < k ==> ds[j].id != id
    ensures k == -1 ==> forall j :: 0 <= j < |ds| ==> ds[j].id != id
  {
    if ds == [] then -1
    else if ds[0].id == id then 0
    else
      var k := FindIndex(ds[1..], id);
      if k == -1 then -1 else k + 1
  }

  /**
   * connectDeviceSuccess on the list. A known id changes only its first device, and of it only
   * the connection flag and the stamp; a new id is appended exactly as given, connection flag
   * included. Unique ids stay unique.
   */
  function AfterConnect(ds: seq<Device>, payload: Device, now: string): (r: seq<Device>)
    ensures var k := FindIndex(ds, payload.id);
            (k >= 0 ==> |r| == |ds| && (forall j :: 0 <= j < |ds| && j != k ==> r[j] == ds[j]) &&
                        r[k].id == ds[k].id && r[k].name == ds[k].name && r[k].deviceType == ds[k].deviceType &&
                        r[k].isConnected && r[k].lastSync == Some(now)) &&
            (k == -1 ==> r == ds + [payload])
    ensures UniqueIds(ds) ==> UniqueIds(r)
  {
    var k := FindIndex(ds, payload.id);
    if k >= 0 then ds[k := ds[k].(isConnected := true, lastSync := Some(now))] else ds + [payload]
  }

  /** disconnectDevice on the list: only the first device with the id is marked disconnected. */
  function AfterDisconnect(ds: seq<Device>, id: string): (r: seq<Device>)
    ensures var k := FindIndex(ds, id);
            |r| == |ds| && (forall j :: 0 <= j < |ds| && j != k ==> r[j] == ds[j]) &&
            (k >= 0 ==> r[k] == ds[k].(isConnected := false)) && (k == -1 ==> r == ds)
  {
    var k := FindIndex(ds, id);
    if k >= 0 then ds[k := ds[k].(isConnected := false)] else ds
  }

  /** syncDevice on the list: only the first device with the id gets the new stamp. */
  function AfterSync(ds: seq<Device>, id: string, now: string): (r: seq<Device>)
    ensures var k := FindIndex(ds, id);
            |r| == |ds| && (forall j :: 0 <= j < |ds| && j != k ==> r[j] == ds[j]) &&
            (k >= 0 ==> r[k] == ds[k].(lastSync := Some(now))) && (k == -1 ==> r == ds)
  {
    var k := FindIndex(ds, id);
    if k >= 0 then ds[k := ds[k].(lastSync := Some(now))] else ds
  }

  /** `filter(d => d.id !== id)` */
  function RemoveId(ds: seq<Device>, id: string): (r: seq<Device>)
    ensures |r| <= |ds|
  {
    if ds == [] then []
    else (if ds[0].id == id then [] else [ds[0]]) + RemoveId(ds[1..], id)
  }

  /** removeDevice drops every device with the id and keeps every other. */
  lemma {:induction false} RemoveIdMembers(ds: seq<Device>, id: string)
    ensures forall d :: d in RemoveId(ds, id) <==> d in ds && d.id != id
  {
    if ds != [] {
      RemoveIdMembers(ds[1..], id);
      assert ds == [ds[0]] + ds[1..];
    }
  }

  /** Removing from a concatenation removes from each part, so order and multiplicity are kept. */
  lemma {:induction false} RemoveIdConcat(ds: seq<Device>, id: string, tail: seq<Device>)
    ensures RemoveId(ds + tail, id) == RemoveId(ds, id) + RemoveId(tail, id)
  {
    if ds != [] {
      RemoveIdConcat(ds[1..], id, tail);
      assert (ds + tail)[1..] == ds[1..] + tail;
    } else {
      assert ds + tail == tail;
    }
  }

  /** A list without the id is left as it is. */
  lemma {:induction false} RemoveIdAbsent(ds: seq<Device>, id: string)
    requires forall j :: 0 <= j < |ds| ==> ds[j].id != id
    ensures RemoveId(ds, id) == ds
  {
    if ds != [] {
      RemoveIdAbsent(ds[1..], id);
      assert ds == [ds[0]] + ds[1..];
    }
  }

  class DeviceStore {
    var connectedDevices: seq<Device>
    var selectedDeviceId: Option<string>
    var isConnecting: bool
    var error: Option<string>

    constructor ()
      ensures connectedDevices == [] && selectedDeviceId == None && !isConnecting && error == None
    {
      connectedDevices := [];
      selectedDeviceId := None;
      isConnecting := false;
      error := None;
    }

    method ConnectDeviceStart()
      modifies this`isConnecting, this`error
      ensures isConnecting && error == None
    {
      isConnecting := true;
      error := None;
    }

    /** connectDeviceSuccess; `now` is the ISO time stamp. */
    method ConnectDeviceSuccess(payload: Device, now: string)
      modifies this`isConnecting, this`connectedDevices
      ensures !isConnecting
      ensures connectedDevices == AfterConnect(old(connectedDevices), payload, now)
      ensures UniqueIds(old(connectedDevices)) ==> UniqueIds(connectedDevices)
    {
      isConnecting := false;
      var k := FindIndex(connectedDevices, payload.id);
      if k >= 0 {
        connectedDevices := connectedDevices[k := connectedDevices[k].(isConnected := true, lastSync := Some(now))];
      } else {
        connectedDevices := connectedDevices + [payload];
      }
    }

    method ConnectDeviceFailure(message: string)
      modifies this`isConnecting, this`error
      ensures !isConnecting && error == Some(message)
    {
      isConnecting := false;
      error := Some(message);
    }

    method DisconnectDevice(id: string)
      modifies this`connectedDevices
      ensures connectedDevices == AfterDisconnect(old(connectedDevices), id)
    {
      var k := FindIndex(connectedDevices, id);
      if k >= 0 {
        connectedDevices := connectedDevices[k := connectedDevices[k].(isConnected := false)];
      }
    }

    /** removeDevice: the selection is cleared only when it is the removed id. */
    method RemoveDevice(id: string)
      modifies this`connectedDevices, this`selectedDeviceId
      ensures connectedDevices == RemoveId(old(connectedDevices), id)
      ensures selectedDeviceId == (if old(selectedDeviceId) == Some(id) then None else old(selectedDeviceId))
    {
      connectedDevices := RemoveId(connectedDevices, id);
      if selectedDeviceId == Some(id) {
        selectedDeviceId := None;
      }
    }

    /** selectDevice: the id is taken whether or not a device has it. */
    method SelectDevice(id: string)
      modifies this`selectedDeviceId
      ensures selectedDeviceId == Some(id)
    {
      selectedDeviceId := Some(id);
    }

    method SyncDevice(id: string, now: string)
      modifies this`connectedDevices
      ensures connectedDevices == AfterSync(old(connectedDevices), id, now)
    {
      var k := FindIndex(connectedDevices, id);
      if k >= 0 {
        connectedDevices := connectedDevices[k := connectedDevices[k].(lastSync := Some(now))];
      }
    }

    method ClearDeviceError()
      modifies this`error
      ensures error == None
    {
      error := None;
    }
  }
}
