/**
 * The dashboard's synchronization logic (src/App.tsx): the client-held
 * device list, the scan that replaces it, and the optimistic toggle that
 * updates one device before the transport answers and then confirms or
 * rolls back.
 *
 * Every list update in the source is `devices.map(d => d.id === id ? ... : d)`;
 * here that is `ReplaceById`, and the three concrete updates are `SetPower`
 * (the optimistic step and the rollback) and `Confirm`.
 */
module App {
  import opened Types
  import TuyaApi

  const ScanFailedMessage: string := "Failed to discover devices. Check network connection."

  /** Replaces every entry whose id is `id` by `f` of it, keeping all other entries and the order. */
  function ReplaceById(ds: seq<Device>, id: string, f: Device -> Device): (r: seq<Device>)
    ensures |r| == |ds|
    ensures forall i :: 0 <= i < |ds| ==> r[i] == (if ds[i].id == id then f(ds[i]) else ds[i])
  {
    if ds == [] then []
    else [if ds[0].id == id then f(ds[0]) else ds[0]] + ReplaceById(ds[1..], id, f)
  }

  /** The entries of `ds` and `e` carry the same ids in the same order. */
  ghost predicate SameIds(ds: seq<Device>, es: seq<Device>)
  {
    |ds| == |es| && forall i :: 0 <= i < |ds| ==> ds[i].id == es[i].id
  }

  /** No id occurs twice in the list. */
  ghost predicate DistinctIds(ds: seq<Device>)
  {
    forall i, j :: 0 <= i < j < |ds| ==> ds[i].id != ds[j].id
  }

  /** Sets the power flag of the entries named `id`; used for the optimistic step and the rollback. */
  function SetPower(ds: seq<Device>, id: string, on: bool): (r: seq<Device>)
    ensures SameIds(ds, r)
    ensures forall i :: 0 <= i < |ds| && ds[i].id == id ==> r[i].isOn == on
    ensures forall i :: 0 <= i < |ds| ==> r[i] == ds[i].(isOn := r[i].isOn)
    ensures forall i :: 0 <= i < |ds| && ds[i].id != id ==> r[i] == ds[i]
  {
    ReplaceById(ds, id, (d: Device) => d.(isOn := on))
  }

  /** Records a confirmed toggle: the reported power state, seen `now`. */
  function Confirm(ds: seq<Device>, id: string, newState: bool, now: int): (r: seq<Device>)
    ensures SameIds(ds, r)
    ensures forall i :: 0 <= i < |ds| && ds[i].id == id ==> r[i].isOn == newState && r[i].lastSeen == now
    ensures forall i :: 0 <= i < |ds| ==> r[i] == ds[i].(isOn := r[i].isOn, lastSeen := r[i].lastSeen)
    ensures forall i :: 0 <= i < |ds| && ds[i].id != id ==> r[i] == ds[i]
  {
    ReplaceById(ds, id, (d: Device) => d.(isOn := newState, lastSeen := now))
  }

  /** The control request a toggle sends: `turn_on` exactly when `turnOn`. */
  function Request(deviceId: string, turnOn: bool): (r: ControlRequest)
    ensures r.deviceId == deviceId && (r.action == TurnOn <==> turnOn)
  {
    ControlRequest(deviceId, if turnOn then TurnOn else TurnOff)
  }

  /** How a control request ended, as the toggle handler sees it. */
  datatype ToggleOutcome =
    | Failure                           // the transport answered success = false
    | Success(newState: bool, now: int) // the transport answered success = true
    | Exception                         // the request itself failed

  /** The outcome for a structured answer of the transport, received at `now`. */
  function OutcomeOf(response: ControlResponse, now: int): (o: ToggleOutcome)
    ensures o.Exception? == false
    ensures o.Success? <==> response.success
    ensures o.Success? ==> o.newState == response.newState && o.now == now
  {
    if response.success then Success(response.newState, now) else Failure
  }

  /**
   * The update applied when a toggle of `id` to `turnOn` ends: on success the
   * reported state, seen at the answer's time; otherwise the negation of the
   * requested state.
   */
  function Resolve(ds: seq<Device>, id: string, turnOn: bool, outcome: ToggleOutcome): (r: seq<Device>)
    ensures SameIds(ds, r)
    ensures forall i :: 0 <= i < |ds| && ds[i].id != id ==> r[i] == ds[i]
    ensures forall i :: 0 <= i < |ds| && ds[i].id == id ==>
      && r[i].isOn == (if outcome.Success? then outcome.newState else !turnOn)
      && r[i].lastSeen == (if outcome.Success? then outcome.now else ds[i].lastSeen)
      && r[i] == ds[i].(isOn := r[i].isOn, lastSeen := r[i].lastSeen)
  {
    match outcome
    case Success(newState, now) => Confirm(ds, id, newState, now)
    case _ => SetPower(ds, id, !turnOn)
  }

  /**
   * Rollback restores the list exactly when every entry named `id` held the
   * negation of the requested state before the optimistic step.
   */
  lemma RollbackRestores(ds: seq<Device>, id: string, turnOn: bool, outcome: ToggleOutcome)
    requires !outcome.Success?
    requires forall i :: 0 <= i < |ds| && ds[i].id == id ==> ds[i].isOn == !turnOn
    ensures Resolve(SetPower(ds, id, turnOn), id, turnOn, outcome) == ds
  {
  }

  /** Without that precondition the rollback does not restore the list. */
  lemma RollbackWithoutPreconditionDiffers(ds: seq<Device>, id: string, turnOn: bool, outcome: ToggleOutcome, k: int)
    requires !outcome.Success?
    requires 0 <= k < |ds| && ds[k].id == id && ds[k].isOn == turnOn
    ensures Resolve(SetPower(ds, id, turnOn), id, turnOn, outcome) != ds
  {
  }

  /** A list update that keeps every entry's id. */
  ghost predicate KeepsIds(f: Device -> Device)
  {
    forall d :: f(d).id == d.id
  }

  /** Updates of two different ids commute: one never disturbs the other's entries. */
  lemma UpdatesOfDistinctIdsCommute(ds: seq<Device>, id1: string, f1: Device -> Device, id2: string, f2: Device -> Device)
    requires id1 != id2 && KeepsIds(f1) && KeepsIds(f2)
    ensures ReplaceById(ReplaceById(ds, id1, f1), id2, f2) == ReplaceById(ReplaceById(ds, id2, f2), id1, f1)
  {
  }

  /**
   * A failed toggle still restores its own entries when updates of other
   * devices happened between the optimistic step and the answer.
   */
  lemma RollbackAfterOtherUpdate(ds: seq<Device>, id: string, turnOn: bool, outcome: ToggleOutcome,
                                 other: string, f: Device -> Device)
    requires !outcome.Success? && other != id && KeepsIds(f)
    requires forall i :: 0 <= i < |ds| && ds[i].id == id ==> ds[i].isOn == !turnOn
    ensures Resolve(ReplaceById(SetPower(ds, id, turnOn), other, f), id, turnOn, outcome)
         == ReplaceById(ds, other, f)
  {
  }

  /**
   * In a list with distinct ids, the only entry carrying a listed device's id
   * is that device, so the card's request `!device.isOn` negates every
   * matching entry's state, as `RollbackRestores` needs.
   */
  lemma ListedRequestMeetsRollback(ds: seq<Device>, device: Device)
    requires DistinctIds(ds) && device in ds
    ensures forall i :: 0 <= i < |ds| && ds[i].id == device.id ==> ds[i] == device
  {
  }

  /** Every update of the toggle path keeps the ids, so distinct ids stay distinct. */
  lemma ResolveKeepsDistinctIds(ds: seq<Device>, id: string, turnOn: bool, outcome: ToggleOutcome)
    requires DistinctIds(ds)
    ensures DistinctIds(SetPower(ds, id, turnOn))
    ensures DistinctIds(Resolve(SetPower(ds, id, turnOn), id, turnOn, outcome))
  {
  }

  /**
   * What a whole toggle guarantees, stated on the specification functions
   * for the list `ds` and the transport's table `table` before the toggle:
   * distinct ids stay distinct, after a success every local entry of the
   * device agrees with the transport's stored record, and a failed toggle
   * whose request negated every matching entry restores the list.
   */
  lemma ToggleSettles(ds: seq<Device>, table: TuyaApi.Table, id: string, turnOn: bool,
                      timeoutRoll: bool, fault: bool, now: int)
    ensures var step := TuyaApi.Control(table, Request(id, turnOn), timeoutRoll, now);
            var r := Resolve(SetPower(ds, id, turnOn), id, turnOn,
                             if fault then Exception else OutcomeOf(step.response, now));
            var negated := forall i :: 0 <= i < |ds| && ds[i].id == id ==> ds[i].isOn == !turnOn;
            && (DistinctIds(ds) ==> DistinctIds(r))
            && (!fault && step.response.success ==>
                  forall i :: 0 <= i < |r| && r[i].id == id ==> r[i].isOn == step.table[id].isOn == turnOn)
            && ((fault || !step.response.success) && negated ==> r == ds)
  {
    var step := TuyaApi.Control(table, Request(id, turnOn), timeoutRoll, now);
    var outcome := if fault then Exception else OutcomeOf(step.response, now);
    if DistinctIds(ds) {
      ResolveKeepsDistinctIds(ds, id, turnOn, outcome);
    }
    if !outcome.Success? && forall i :: 0 <= i < |ds| && ds[i].id == id ==> ds[i].isOn == !turnOn {
      RollbackRestores(ds, id, turnOn, outcome);
    }
  }

  // The summary counts shown above the device list.

  predicate IsOnline(d: Device) { d.isOnline }
  predicate IsOffline(d: Device) { !d.isOnline }
  predicate IsActive(d: Device) { d.isOn && d.isOnline }

  /** `ds.filter(p)`: the entries satisfying `p`, in order, each as often as in `ds`. */
  function Filter(ds: seq<Device>, p: Device -> bool): (r: seq<Device>)
    ensures |r| <= |ds|
    ensures forall d :: d in r ==> d in ds && p(d)
    ensures forall d :: d in ds && p(d) ==> d in r
    ensures forall d {:trigger multiset(r)[d]} :: multiset(r)[d] == (if p(d) then multiset(ds)[d] else 0)
  {
    if ds == [] then []
    else
      assert ds == [ds[0]] + ds[1..];
      (if p(ds[0]) then [ds[0]] else []) + Filter(ds[1..], p)
  }

  /** Online and offline entries split the list; active entries are among the online ones. */
  lemma {:induction false} SummaryCounts(ds: seq<Device>)
    ensures |Filter(ds, IsOnline)| + |Filter(ds, IsOffline)| == |ds|
    ensures |Filter(ds, IsActive)| <= |Filter(ds, IsOnline)|
  {
    if ds != [] {
      SummaryCounts(ds[1..]);
    }
  }

  /** Two lists with the same online flags, position by position, have the same number of online entries. */
  lemma {:induction false} SameOnlineFlagsSameCount(ds: seq<Device>, es: seq<Device>)
    requires |ds| == |es|
    requires forall i :: 0 <= i < |ds| ==> ds[i].isOnline == es[i].isOnline
    ensures |Filter(ds, IsOnline)| == |Filter(es, IsOnline)|
  {
    if ds != [] {
      SameOnlineFlagsSameCount(ds[1..], es[1..]);
    }
  }

  /** A toggle never changes the online or offline counts. */
  lemma PowerUpdatesKeepOnlineCount(ds: seq<Device>, id: string, turnOn: bool, outcome: ToggleOutcome)
    ensures |Filter(Resolve(ds, id, turnOn, outcome), IsOnline)| == |Filter(ds, IsOnline)|
    ensures |Filter(SetPower(ds, id, turnOn), IsOnline)| == |Filter(ds, IsOnline)|
  {
    SameOnlineFlagsSameCount(Resolve(ds, id, turnOn, outcome), ds);
    SameOnlineFlagsSameCount(SetPower(ds, id, turnOn), ds);
  }

  /** The dashboard's state; `lastScan == None` stands for "never scanned". */
  class Dashboard {
    var devices: seq<Device>
    var isScanning: bool
    var lastScan: Option<int>
    var error: Option<string>

    /** Every list the dashboard installs has distinct ids. */
    ghost predicate Valid()
      reads this
    {
      DistinctIds(devices)
    }

    constructor ()
      ensures devices == [] && !isScanning && lastScan == None && error == None
      ensures Valid()
    {
      devices, isScanning, lastScan, error := [], false, None, None;
    }

    /** The part of a scan before the transport answers. */
    method BeginScan()
      modifies this
      ensures isScanning && error == None
      ensures devices == old(devices) && lastScan == old(lastScan)
    {
      isScanning := true;
      error := None;
    }

    /** The part of a scan after the transport answered (`Some`) or failed (`None`). */
    method FinishScan(result: Option<DiscoveryResult>)
      modifies this
      ensures !isScanning
      ensures result.Some? ==>
        devices == result.value.devices && lastScan == Some(result.value.timestamp) && error == old(error)
      ensures result.None? ==>
        devices == old(devices) && lastScan == old(lastScan) && error == Some(ScanFailedMessage)
    {
      if result.Some? {
        devices := result.value.devices;
        lastScan := Some(result.value.timestamp);
      } else {
        error := Some(ScanFailedMessage);
      }
      isScanning := false;
    }

    /** A whole scan; `fault` says the discovery request failed in transport. */
    method ScanForDevices(api: TuyaApi.TuyaApiService, fault: bool, now: int)
      requires api.Valid()
      modifies this
      ensures !isScanning
      ensures !fault ==>
        && devices == api.DiscoverDevices(now).devices
        && lastScan == Some(now)
        && error == None
        && DistinctIds(devices)
      ensures fault ==>
        devices == old(devices) && lastScan == old(lastScan) && error == Some(ScanFailedMessage)
      ensures !fault || old(Valid()) ==> Valid()
    {
      BeginScan();
      if fault {
        FinishScan(None);
      } else {
        var result := api.DiscoverDevices(now);
        FinishScan(Some(result));
      }
    }

    /** The optimistic step of a toggle. */
    method BeginToggle(deviceId: string, turnOn: bool)
      modifies this`devices
      ensures devices == SetPower(old(devices), deviceId, turnOn)
    {
      devices := SetPower(devices, deviceId, turnOn);
    }

    /** The step of a toggle after the transport's answer, applied to the list as it is then. */
    method ResolveToggle(deviceId: string, turnOn: bool, outcome: ToggleOutcome)
      modifies this`devices
      ensures devices == Resolve(old(devices), deviceId, turnOn, outcome)
    {
      devices := Resolve(devices, deviceId, turnOn, outcome);
    }

    /**
     * A whole toggle with no other update in between; `fault` says the
     * control request failed in transport. The toggle never touches the
     * error, the scanning flag or the last scan time.
     */
    method HandleDeviceToggle(api: TuyaApi.TuyaApiService, deviceId: string, turnOn: bool,
                              timeoutRoll: bool, fault: bool, now: int)
      requires api.Valid()
      modifies this`devices, api
      ensures api.Valid() && api.order == old(api.order)
      ensures error == old(error) && isScanning == old(isScanning) && lastScan == old(lastScan)
      ensures DistinctIds(old(devices)) ==> DistinctIds(devices)
      ensures fault ==>
        && api.devices == old(api.devices)
        && devices == Resolve(SetPower(old(devices), deviceId, turnOn), deviceId, turnOn, Exception)
      ensures !fault ==>
        var step := TuyaApi.Control(old(api.devices), Request(deviceId, turnOn), timeoutRoll, now);
        && api.devices == step.table
        && devices == Resolve(SetPower(old(devices), deviceId, turnOn), deviceId, turnOn,
                              OutcomeOf(step.response, now))
        // after a success the local entries agree with the transport's record
        && (step.response.success ==>
              forall i :: 0 <= i < |devices| && devices[i].id == deviceId ==>
                devices[i].isOn == api.devices[deviceId].isOn == turnOn)
      // a failed toggle restores the list when the request negated the displayed state
      ensures (fault || !TuyaApi.Control(old(api.devices), Request(deviceId, turnOn), timeoutRoll, now).response.success) &&
              (forall i :: 0 <= i < |old(devices)| && old(devices)[i].id == deviceId ==> old(devices)[i].isOn == !turnOn)
              ==> devices == old(devices)
    {
      ghost var before, table := devices, api.devices;
      BeginToggle(deviceId, turnOn);
      var outcome: ToggleOutcome;
      if fault {
        outcome := Exception;
      } else {
        var response := api.ControlDevice(Request(deviceId, turnOn), timeoutRoll, now);
        outcome := OutcomeOf(response, now);
      }
      ResolveToggle(deviceId, turnOn, outcome);
      assert error == old(error) && isScanning == old(isScanning) && lastScan == old(lastScan);
      ToggleSettles(before, table, deviceId, turnOn, timeoutRoll, fault, now);
    }
  }
}
