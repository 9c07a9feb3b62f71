/**
 * The behaviour of one device card (src/components/DeviceCard.tsx): the
 * icon chosen for the device's category, the "last seen" label, and the
 * click handler that guards against re-entrant and offline toggles.
 */
module DeviceCardLogic {
  import opened Types
  import App
  import TuyaApi

  /** The icons a card can show. */
  datatype Icon = LightbulbIcon | ZapIcon | FanIcon | ToggleLeftIcon | PowerIcon

  /** The category-to-icon table of the card. */
  const DeviceIcons: map<DeviceType, Icon> :=
    map[Light := LightbulbIcon, Outlet := ZapIcon, Fan := FanIcon, Switch := ToggleLeftIcon, Other := PowerIcon]

  /** The icon table has an entry for every category, and no two categories share an icon. */
  lemma DeviceIconsTotal()
    ensures forall t: DeviceType :: t in DeviceIcons
    ensures forall s: DeviceType, t: DeviceType :: s in DeviceIcons && t in DeviceIcons && s != t ==>
      DeviceIcons[s] != DeviceIcons[t]
  {
    forall t: DeviceType ensures t in DeviceIcons {
      match t
      case Light =>
      case Outlet =>
      case Fan =>
      case Switch =>
      case Other =>
    }
  }

  /** The icon for a device: its category's entry in the table, which is always present. */
  function IconFor(d: Device): (r: Icon)
    ensures d.kind in DeviceIcons && r == DeviceIcons[d.kind]
  {
    DeviceIconsTotal();
    DeviceIcons[d.kind]
  }

  const MillisPerMinute: int := 60000

  /** The "last seen" label, one case per branch of the formatter. */
  datatype LastSeenLabel =
    | JustNow
    | MinutesAgo(minutes: int)
    | HoursAgo(hours: int)
    | DaysAgo(days: int)

  /**
   * The label for a device last seen at `lastSeen` when the clock reads
   * `now`. Whole elapsed minutes are `floor((now - lastSeen) / 60000)`;
   * Dafny's division by a positive divisor is that floor, also for a
   * timestamp in the future.
   */
  function FormatLastSeen(now: int, lastSeen: int): (r: LastSeenLabel)
    // the four labels are chosen by the elapsed time alone and cover every input
    ensures r.JustNow? <==> now - lastSeen < 60000
    ensures r.MinutesAgo? <==> 60000 <= now - lastSeen < 3600000
    ensures r.HoursAgo? <==> 3600000 <= now - lastSeen < 86400000
    ensures r.DaysAgo? <==> 86400000 <= now - lastSeen
    // each number is the elapsed time in whole units
    ensures r.MinutesAgo? ==>
      1 <= r.minutes < 60 && r.minutes * 60000 <= now - lastSeen < (r.minutes + 1) * 60000
    ensures r.HoursAgo? ==>
      1 <= r.hours <= 23 && r.hours * 3600000 <= now - lastSeen < (r.hours + 1) * 3600000
    ensures r.DaysAgo? ==>
      1 <= r.days && r.days * 86400000 <= now - lastSeen < (r.days + 1) * 86400000
  {
    var diffMs := now - lastSeen;
    var diffMins := diffMs / MillisPerMinute;
    if diffMins < 1 then JustNow
    else if diffMins < 60 then MinutesAgo(diffMins)
    else if diffMins < 1440 then HoursAgo(diffMins / 60)
    else DaysAgo(diffMins / 1440)
  }

  /** A toggle the card asks the dashboard for. */
  datatype ToggleRequest = ToggleRequest(deviceId: string, turnOn: bool)

  /**
   * The click handler's decision: nothing while a toggle is in flight or the
   * device is offline, otherwise the device's own id and the negation of
   * its displayed power state.
   */
  function ToggleIntent(device: Device, isToggling: bool): (r: Option<ToggleRequest>)
    ensures r.None? <==> isToggling || !device.isOnline
    ensures r.Some? ==> r.value.deviceId == device.id && r.value.turnOn != device.isOn
  {
    if isToggling || !device.isOnline then None
    else Some(ToggleRequest(device.id, !device.isOn))
  }

  /** The card's own state: whether a toggle it issued is still in flight. */
  class DeviceCard {
    var isToggling: bool

    constructor ()
      ensures !isToggling
    {
      isToggling := false;
    }

    /** The part of a click before the dashboard is called. */
    method BeginHandleToggle(device: Device) returns (request: Option<ToggleRequest>)
      modifies this
      ensures request == ToggleIntent(device, old(isToggling))
      ensures isToggling == (old(isToggling) || request.Some?)
    {
      request := ToggleIntent(device, isToggling);
      if request.Some? {
        isToggling := true;
      }
    }

    /** The `finally` of a click: clears the in-flight flag whatever the call did. */
    method EndHandleToggle()
      modifies this
      ensures !isToggling
    {
      isToggling := false;
    }

    /**
     * A whole click on the switch of `device`, as shown by the dashboard
     * `app`. When a request goes out, the dashboard's list is resolved with
     * the transport's outcome; when the device is listed with distinct ids
     * and the toggle fails, the list is back to what it was.
     */
    method HandleToggle(device: Device, app: App.Dashboard, api: TuyaApi.TuyaApiService,
                        timeoutRoll: bool, fault: bool, now: int)
      requires api.Valid()
      modifies this, app`devices, api
      ensures api.Valid() && api.order == old(api.order)
      ensures old(app.Valid()) ==> app.Valid()
      ensures isToggling == old(isToggling)
      ensures old(isToggling) || !device.isOnline ==>
        app.devices == old(app.devices) && api.devices == old(api.devices)
      ensures !old(isToggling) && device.isOnline ==>
        var step := TuyaApi.Control(old(api.devices), App.Request(device.id, !device.isOn), timeoutRoll, now);
        && api.devices == (if fault then old(api.devices) else step.table)
        && app.devices == App.Resolve(App.SetPower(old(app.devices), device.id, !device.isOn),
                                      device.id, !device.isOn,
                                      if fault then App.Exception else App.OutcomeOf(step.response, now))
      ensures !old(isToggling) && device.isOnline && !fault &&
              TuyaApi.Control(old(api.devices), App.Request(device.id, !device.isOn), timeoutRoll, now).response.success ==>
        forall i :: 0 <= i < |app.devices| && app.devices[i].id == device.id ==>
          app.devices[i].isOn == !device.isOn && app.devices[i].lastSeen == now
      ensures !old(isToggling) && device.isOnline && device in old(app.devices) && App.DistinctIds(old(app.devices)) &&
              (fault || !TuyaApi.Control(old(api.devices), App.Request(device.id, !device.isOn), timeoutRoll, now).response.success)
              ==> app.devices == old(app.devices)
    {
      var request := BeginHandleToggle(device);
      if request.Some? {
        assert isToggling;
        if device in app.devices && App.DistinctIds(app.devices) {
          App.ListedRequestMeetsRollback(app.devices, device);
        }
        app.HandleDeviceToggle(api, request.value.deviceId, request.value.turnOn, timeoutRoll, fault, now);
        EndHandleToggle();
      }
    }
  }
}
