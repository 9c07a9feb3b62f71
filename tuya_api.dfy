/**
 * The mock device transport (src/lib/tuya-api.ts): an in-memory table from
 * device id to device record, seeded with four fixed devices, answering
 * discovery, control and status requests.
 *
 * The random draws of the source become boolean inputs (`timeoutRoll` is
 * "the 5% communication timeout fired", `reconnectRoll` is "the 30% reconnect
 * fired") and the wall clock becomes the integer `now`. The artificial delays
 * have no effect on any result and are not modelled.
 */
module TuyaApi {
  import opened Types

  const DeviceNotFound: string := "Device not found"
  const DeviceOffline: string := "Device is offline"
  const CommunicationTimeout: string := "Communication timeout"

  /** A table from device id to the stored record. */
  type Table = map<string, Device>

  /**
   * The four records the service is seeded with, in declaration order.
   * `loadTime` is the clock when the module is loaded: three devices were
   * last seen then, the offline fan five minutes earlier.
   */
  function MockDevices(loadTime: int): (ds: seq<Device>)
    ensures |ds| == 4
    ensures forall i, j :: 0 <= i < j < |ds| ==> ds[i].id != ds[j].id
    ensures forall i :: 0 <= i < |ds| ==> ds[i].ip.Some? && ds[i].model.Some?
  {
    [ Device("device_001", "Living Room Light", Light, true, false,
             Some("192.168.1.101"), Some("Tuya Smart Bulb v2"), loadTime),
      Device("device_002", "Kitchen Outlet", Outlet, true, true,
             Some("192.168.1.102"), Some("Smart Plug Pro"), loadTime),
      Device("device_003", "Bedroom Fan", Fan, false, false,
             Some("192.168.1.103"), Some("Ceiling Fan Controller"), loadTime - 300000),
      Device("device_004", "Patio Switch", Switch, true, false,
             Some("192.168.1.104"), Some("Outdoor Smart Switch"), loadTime) ]
  }

  /** The table right after construction: each mock device stored under its id. */
  function SeedTable(loadTime: int): (t: Table)
    ensures forall k :: k in t <==> exists j :: 0 <= j < 4 && MockDevices(loadTime)[j].id == k
    ensures forall j :: 0 <= j < 4 ==> t[MockDevices(loadTime)[j].id] == MockDevices(loadTime)[j]
  {
    var ds := MockDevices(loadTime);
    map[ds[0].id := ds[0], ds[1].id := ds[1], ds[2].id := ds[2], ds[3].id := ds[3]]
  }

  /** The ids of the mock devices, in declaration order. */
  lemma MockDeviceIds(loadTime: int)
    ensures MockDevices(loadTime)[0].id == "device_001"
    ensures MockDevices(loadTime)[1].id == "device_002"
    ensures MockDevices(loadTime)[2].id == "device_003"
    ensures MockDevices(loadTime)[3].id == "device_004"
  {
  }

  /** `b` has the keys of `a` and agrees with it on every key other than `id`. */
  ghost predicate SameExcept(a: Table, b: Table, id: string)
  {
    && a.Keys == b.Keys
    && forall k :: k in a && k != id ==> b[k] == a[k]
  }

  /** Two records that agree on everything except `isOnline`, `isOn` and `lastSeen`. */
  ghost predicate SameIdentity(d: Device, e: Device)
  {
    d.id == e.id && d.name == e.name && d.kind == e.kind && d.ip == e.ip && d.model == e.model
  }

  /** The copy a discovery hands out: an online device is reported as seen `now`. */
  function Refreshed(d: Device, now: int): (e: Device)
    ensures SameIdentity(d, e) && e.isOnline == d.isOnline && e.isOn == d.isOn
    ensures e.lastSeen == if d.isOnline then now else d.lastSeen
  {
    d.(lastSeen := if d.isOnline then now else d.lastSeen)
  }

  /** `Array.from(values).map(...)`: the refreshed copies of the entries named by `ids`, in that order. */
  function RefreshAll(table: Table, ids: seq<string>, now: int): (r: seq<Device>)
    requires forall i :: 0 <= i < |ids| ==> ids[i] in table
    ensures |r| == |ids|
    ensures forall i :: 0 <= i < |ids| ==> r[i] == Refreshed(table[ids[i]], now)
  {
    if ids == [] then [] else [Refreshed(table[ids[0]], now)] + RefreshAll(table, ids[1..], now)
  }

  /** The outcome of one control request: the answer and the table afterwards. */
  datatype ControlStep = ControlStep(response: ControlResponse, table: Table)

  /**
   * The control decision: unknown id, then offline, then a simulated timeout,
   * and only then success, which is the one branch that writes the table.
   */
  function Control(table: Table, request: ControlRequest, timeoutRoll: bool, now: int): (r: ControlStep)
    ensures r.response.deviceId == request.deviceId
    ensures SameExcept(table, r.table, request.deviceId)
    ensures r.response.success <==>
      request.deviceId in table && table[request.deviceId].isOnline && !timeoutRoll
    ensures r.response.success <==> r.response.error == None
    // Unknown id: reported as off, nothing written.
    ensures request.deviceId !in table ==>
      r.response.newState == false && r.response.error == Some(DeviceNotFound) && r.table == table
    // Offline device: reported with its stored power state, whatever the timeout roll.
    ensures request.deviceId in table && !table[request.deviceId].isOnline ==>
      r.response.error == Some(DeviceOffline) && r.table == table
    ensures request.deviceId in table && table[request.deviceId].isOnline && timeoutRoll ==>
      r.response.error == Some(CommunicationTimeout) && r.table == table
    // For a known id the answer always reports the power state stored afterwards.
    ensures request.deviceId in table ==>
      r.response.newState == r.table[request.deviceId].isOn
    ensures r.response.success ==>
      && r.response.newState == (request.action == TurnOn)
      && SameIdentity(table[request.deviceId], r.table[request.deviceId])
      && r.table[request.deviceId].isOnline
      && r.table[request.deviceId].lastSeen == now
  {
    var id := request.deviceId;
    if id !in table then
      ControlStep(ControlResponse(false, id, false, Some(DeviceNotFound)), table)
    else if !table[id].isOnline then
      ControlStep(ControlResponse(false, id, table[id].isOn, Some(DeviceOffline)), table)
    else if timeoutRoll then
      ControlStep(ControlResponse(false, id, table[id].isOn, Some(CommunicationTimeout)), table)
    else
      var newState := request.action == TurnOn;
      ControlStep(ControlResponse(true, id, newState, None),
                  table[id := table[id].(isOn := newState, lastSeen := now)])
  }

  /** The outcome of one status request: the copy handed out and the table afterwards. */
  datatype StatusStep = StatusStep(device: Option<Device>, table: Table)

  /** A status read, during which an offline device may reconnect. */
  function Status(table: Table, id: string, reconnectRoll: bool, now: int): (r: StatusStep)
    ensures SameExcept(table, r.table, id)
    ensures id !in table ==> r.device == None && r.table == table
    ensures id in table ==> r.device == Some(r.table[id])
    ensures id in table ==>
      && SameIdentity(table[id], r.table[id])
      && r.table[id].isOn == table[id].isOn
      && (table[id].isOnline ==> r.table[id].isOnline)
    // The entry changes exactly when an offline device reconnects.
    ensures id in table ==>
      (r.table[id] != table[id] <==> !table[id].isOnline && reconnectRoll)
    ensures id in table && !table[id].isOnline && reconnectRoll ==>
      r.table[id].isOnline && r.table[id].lastSeen == now
  {
    if id !in table then
      StatusStep(None, table)
    else if !table[id].isOnline && reconnectRoll then
      var d := table[id].(isOnline := true, lastSeen := now);
      StatusStep(Some(d), table[id := d])
    else
      StatusStep(Some(table[id]), table)
  }

  /** Forcing a device offline clears its online flag and nothing else. */
  function ForceOffline(table: Table, id: string): (r: Table)
    ensures SameExcept(table, r, id)
    ensures id !in table ==> r == table
    ensures id in table ==>
      && !r[id].isOnline
      && SameIdentity(table[id], r[id])
      && r[id].isOn == table[id].isOn
      && r[id].lastSeen == table[id].lastSeen
  {
    if id in table then table[id := table[id].(isOnline := false)] else table
  }

  /** Forcing a device online sets its online flag and stamps it seen `now`. */
  function ForceOnline(table: Table, id: string, now: int): (r: Table)
    ensures SameExcept(table, r, id)
    ensures id !in table ==> r == table
    ensures id in table ==>
      && r[id].isOnline
      && SameIdentity(table[id], r[id])
      && r[id].isOn == table[id].isOn
      && r[id].lastSeen == now
  {
    if id in table then table[id := table[id].(isOnline := true, lastSeen := now)] else table
  }

  /** Turning on the seeded offline fan fails as offline and changes nothing, whatever the timeout roll. */
  lemma SeededOfflineFanControl(loadTime: int, timeoutRoll: bool, now: int)
    ensures Control(SeedTable(loadTime), ControlRequest("device_003", TurnOn), timeoutRoll, now)
         == ControlStep(ControlResponse(false, "device_003", false, Some(DeviceOffline)), SeedTable(loadTime))
  {
  }

  /** Turning off the seeded outlet, which is online and on, succeeds when no timeout fires. */
  lemma SeededOutletTurnOff(loadTime: int, now: int)
    ensures var r := Control(SeedTable(loadTime), ControlRequest("device_002", TurnOff), false, now);
      && r.response == ControlResponse(true, "device_002", false, None)
      && !r.table["device_002"].isOn
      && r.table["device_002"].lastSeen == now
  {
  }

  /**
   * The seeding loop: each device is `set` under its id, a new key going to
   * the end of the insertion order. The ids must be distinct, as they are
   * for the mock devices.
   */
  method InsertAll(seeds: seq<Device>) returns (table: Table, ids: seq<string>)
    requires forall i, j :: 0 <= i < j < |seeds| ==> seeds[i].id != seeds[j].id
    ensures |ids| == |seeds|
    ensures forall j :: 0 <= j < |seeds| ==> ids[j] == seeds[j].id
    ensures forall k :: k in table <==> k in ids
    ensures forall j :: 0 <= j < |seeds| ==> table[seeds[j].id] == seeds[j]
  {
    table, ids := map[], [];
    var i := 0;
    while i < |seeds|
      invariant 0 <= i <= |seeds|
      invariant |ids| == i
      invariant forall j :: 0 <= j < i ==> ids[j] == seeds[j].id
      invariant forall k :: k in table <==> k in ids
      invariant forall j :: 0 <= j < i ==> table[seeds[j].id] == seeds[j]
    {
      var d := seeds[i];
      if d.id !in table {
        ids := ids + [d.id];
      }
      table := table[d.id := d];
      i := i + 1;
    }
  }

  /** The service object; `order` is the insertion order of the table's keys. */
  class TuyaApiService {
    var devices: Table
    var order: seq<string>

    /** Every key appears once in `order`, and every record is stored under its own id. */
    ghost predicate Valid()
      reads this
    {
      && (forall i, j :: 0 <= i < j < |order| ==> order[i] != order[j])
      && (forall k :: k in devices <==> k in order)
      && (forall k :: k in devices ==> devices[k].id == k)
    }

    /** Seeds the table with a copy of each mock device, in declaration order. */
    constructor (loadTime: int)
      ensures Valid()
      ensures order == ["device_001", "device_002", "device_003", "device_004"]
      ensures forall i :: 0 <= i < 4 ==> devices[order[i]] == MockDevices(loadTime)[i]
      ensures devices == SeedTable(loadTime)
    {
      var seeds := MockDevices(loadTime);
      var table, ids := InsertAll(seeds);
      MockDeviceIds(loadTime);
      assert ids == [seeds[0].id, seeds[1].id, seeds[2].id, seeds[3].id];
      assert table == SeedTable(loadTime) by {
        forall k | k in table ensures k in SeedTable(loadTime) && table[k] == SeedTable(loadTime)[k] {
          var j :| 0 <= j < 4 && ids[j] == k;
        }
        forall k | k in SeedTable(loadTime) ensures k in table {
          var j :| 0 <= j < 4 && seeds[j].id == k;
        }
      }
      devices := table;
      order := ids;
    }

    /**
     * A snapshot of every device in insertion order. Online devices are
     * reported as seen `now`; the stored records are not updated.
     */
    function DiscoverDevices(now: int): (r: DiscoveryResult)
      reads this
      requires Valid()
      ensures r.timestamp == now
      ensures |r.devices| == |order|
      ensures forall i :: 0 <= i < |order| ==>
        && r.devices[i].id == order[i]
        && SameIdentity(devices[order[i]], r.devices[i])
        && r.devices[i].isOnline == devices[order[i]].isOnline
        && r.devices[i].isOn == devices[order[i]].isOn
        && r.devices[i].lastSeen == (if devices[order[i]].isOnline then now else devices[order[i]].lastSeen)
      ensures forall i, j :: 0 <= i < j < |r.devices| ==> r.devices[i].id != r.devices[j].id
    {
      DiscoveryResult(RefreshAll(devices, order, now), now)
    }

    /** Every stored device appears in a discovery. */
    lemma DiscoverCoversTable(now: int, id: string)
      requires Valid() && id in devices
      ensures exists i :: 0 <= i < |DiscoverDevices(now).devices| && DiscoverDevices(now).devices[i].id == id
    {
      var i :| 0 <= i < |order| && order[i] == id;
      assert DiscoverDevices(now).devices[i].id == id;
    }

    method ControlDevice(request: ControlRequest, timeoutRoll: bool, now: int) returns (response: ControlResponse)
      requires Valid()
      modifies this
      ensures Valid() && order == old(order)
      ensures response == Control(old(devices), request, timeoutRoll, now).response
      ensures devices == Control(old(devices), request, timeoutRoll, now).table
    {
      if request.deviceId !in devices {
        return ControlResponse(false, request.deviceId, false, Some(DeviceNotFound));
      }
      var device := devices[request.deviceId];
      if !device.isOnline {
        return ControlResponse(false, request.deviceId, device.isOn, Some(DeviceOffline));
      }
      if timeoutRoll {
        return ControlResponse(false, request.deviceId, device.isOn, Some(CommunicationTimeout));
      }
      var newState := request.action == TurnOn;
      device := device.(isOn := newState, lastSeen := now);
      devices := devices[request.deviceId := device];
      response := ControlResponse(true, request.deviceId, newState, None);
    }

    method GetDeviceStatus(deviceId: string, reconnectRoll: bool, now: int) returns (device: Option<Device>)
      requires Valid()
      modifies this
      ensures Valid() && order == old(order)
      ensures device == Status(old(devices), deviceId, reconnectRoll, now).device
      ensures devices == Status(old(devices), deviceId, reconnectRoll, now).table
    {
      if deviceId !in devices {
        return None;
      }
      var d := devices[deviceId];
      if !d.isOnline && reconnectRoll {
        d := d.(isOnline := true, lastSeen := now);
        devices := devices[deviceId := d];
      }
      device := Some(d);
    }

    method SimulateDeviceOffline(deviceId: string)
      requires Valid()
      modifies this
      ensures Valid() && order == old(order)
      ensures devices == ForceOffline(old(devices), deviceId)
    {
      if deviceId in devices {
        devices := devices[deviceId := devices[deviceId].(isOnline := false)];
      }
    }

    method SimulateDeviceOnline(deviceId: string, now: int)
      requires Valid()
      modifies this
      ensures Valid() && order == old(order)
      ensures devices == ForceOnline(old(devices), deviceId, now)
    {
      if deviceId in devices {
        devices := devices[deviceId := devices[deviceId].(isOnline := true, lastSeen := now)];
      }
    }
  }
}
