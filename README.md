# Tuya device controller: synchronization core in Dafny

This project models the behaviour of a small smart-home dashboard. The dashboard
discovers devices and switches them on and off through a mock transport.
Three parts are modelled:

- **The mock transport** (`TuyaApi`, file `tuya_api.dfy`). The class
  `TuyaApiService` holds a table from device id to device record (`devices`)
  and the insertion order of its keys (`order`). The constructor seeds the
  table with four fixed devices. The class answers discovery, control and
  status requests, and has two hooks that force a device offline or online.
  Each state-changing method is proved against a pure function of the old
  table (`Control`, `Status`, `ForceOffline`, `ForceOnline`), and the
  properties are stated on those functions.
- **The dashboard controller** (`App`, file `app.dfy`). The class `Dashboard`
  holds the client's device list, the scanning flag, the last scan time and
  the error message. A scan replaces the list. A toggle is split into the
  optimistic step (`BeginToggle`) and the step after the answer
  (`ResolveToggle`), so that rollback can be stated with and without other
  updates in between. Every list update is the pure replace-by-id transform
  `ReplaceById`. The summary counts are `Filter`s over the list.
- **The device card** (`DeviceCardLogic`, file `device_card.dfy`). It covers
  the click handler with its re-entrancy and offline guard, the "last seen"
  label, and the category-to-icon table.

The shared record and request/response shapes are in `Types` (`types.dfy`).

Random draws become boolean inputs. `timeoutRoll` means the 5% communication
timeout fired, and `reconnectRoll` means the 30% reconnect fired. The clock
becomes an integer `now` in milliseconds. The time the module is loaded, which
the seed records use, is the constructor parameter `loadTime`. A transport
exception, which the mock itself never raises, is the boolean input `fault` of
the composite controller methods.

Two behaviours of the code matter for the model:

- Discovery does not write the refreshed `lastSeen` values back into the table
  (src/lib/tuya-api.ts:58-61 build fresh copies). `DiscoverDevices` is a
  function of the service, so the table is unchanged by construction.
- A failed toggle does not restore a saved prior value. It sets the entry to
  the negation of the requested state (src/App.tsx:57, 79). That equals the
  prior state only when the request was the negation of the entry's state.
  The card always sends that (src/components/DeviceCard.tsx:33). Under that
  condition `RollbackRestores` and `HandleToggle` prove the list is restored.
  `RollbackWithoutPreconditionDiffers` shows that without it the list is not
  restored.

## Model

| member | source | states |
|---|---|---|
| `TuyaApi.MockDevices` | src/lib/tuya-api.ts:3-44 | exactly four seed records, with pairwise distinct ids, each with an address and a model label |
| `TuyaApi.SeedTable` | src/lib/tuya-api.ts:3-53 | the seeded table's keys are exactly the four seed ids, and each seed id maps to its own seed record |
| `TuyaApi.MockDeviceIds` | src/lib/tuya-api.ts:3-44 | the seed records carry the ids device_001, device_002, device_003 and device_004, in that order |
| `TuyaApi.InsertAll` | src/lib/tuya-api.ts:49-53 | inserting records with distinct ids one by one into an empty map gives a key order equal to the records' ids in order, a key set equal to those ids, and each id mapped to its record |
| `TuyaApi.TuyaApiService.constructor` | src/lib/tuya-api.ts:49-53 | after seeding, the table holds exactly the four seed ids, each mapped to its seed record; the insertion order is device_001..device_004; the table invariant holds |
| `TuyaApi.Refreshed` | src/lib/tuya-api.ts:58-61 | a discovered copy keeps every field but `lastSeen`, which is `now` for an online device and the stored value otherwise |
| `TuyaApi.RefreshAll` | src/lib/tuya-api.ts:58-61 | mapping over the table's values gives one refreshed copy per id, in the given order |
| `TuyaApi.TuyaApiService.DiscoverDevices` | src/lib/tuya-api.ts:55-67 | one record per table entry, in insertion order, with pairwise distinct ids; every field equals the stored one except `lastSeen` (now if online, stored otherwise); the timestamp is `now`; the table is not written |
| `TuyaApi.TuyaApiService.DiscoverCoversTable` | src/lib/tuya-api.ts:58-66 | every id stored in the table appears in a discovery |
| `TuyaApi.Control` | src/lib/tuya-api.ts:69-111 | checks run in order (unknown id, offline, timeout, success); unknown id gives success=false, newState=false, "Device not found"; offline gives "Device is offline" whatever the timeout roll; a timeout gives "Communication timeout"; all three leave the table unchanged; success holds exactly when the id is known, online and no timeout fired, and sets only that entry's `isOn` to `action == turn_on` and `lastSeen` to `now`; the id is echoed, the key set is kept, and for a known id `newState` is the stored power state afterwards |
| `TuyaApi.TuyaApiService.ControlDevice` | src/lib/tuya-api.ts:69-111 | the answer and the new table are those of `Control` on the old table; the insertion order and the table invariant are kept |
| `TuyaApi.SeededOfflineFanControl` | src/lib/tuya-api.ts:83-90 | on the seeded table, turning on device_003 (offline, off) answers {success=false, newState=false, "Device is offline"} and changes nothing, whatever the timeout roll |
| `TuyaApi.SeededOutletTurnOff` | src/lib/tuya-api.ts:101-110 | on the seeded table, turning off device_002 (online, on) with no timeout answers {success=true, newState=false} and stamps the outlet seen `now` |
| `TuyaApi.Status` | src/lib/tuya-api.ts:113-127 | unknown id gives no device and no change; otherwise the returned copy is the stored record afterwards; `isOn` and the identity fields never change; an online device is never turned offline; the entry changes exactly when it was offline and the reconnect roll fired, and then it is online and seen `now`; no key is added or removed |
| `TuyaApi.TuyaApiService.GetDeviceStatus` | src/lib/tuya-api.ts:113-127 | the answer and the new table are those of `Status` on the old table; the order and the invariant are kept |
| `TuyaApi.ForceOffline` | src/lib/tuya-api.ts:134-140 | no-op for an unknown id; otherwise only `isOnline` changes, to false; keys are kept |
| `TuyaApi.TuyaApiService.SimulateDeviceOffline` | src/lib/tuya-api.ts:134-140 | the new table is `ForceOffline` of the old one; the order and the invariant are kept |
| `TuyaApi.ForceOnline` | src/lib/tuya-api.ts:142-149 | no-op for an unknown id; otherwise `isOnline` becomes true and `lastSeen` becomes `now`, and nothing else changes; keys are kept |
| `TuyaApi.TuyaApiService.SimulateDeviceOnline` | src/lib/tuya-api.ts:142-149 | the new table is `ForceOnline` of the old one; the order and the invariant are kept |
| `App.ReplaceById` | src/App.tsx:42-47 | the list keeps its length and order; an entry whose id matches becomes `f` of it and every other entry is unchanged |
| `App.SetPower` | src/App.tsx:42-48 | the optimistic step: ids and order kept, matching entries get `isOn := on` with all other fields unchanged, non-matching entries unchanged (so an absent id leaves the list unchanged) |
| `App.Confirm` | src/App.tsx:66-72 | on success, matching entries get `isOn := newState` and `lastSeen := now`, nothing else changes |
| `App.Request` | src/App.tsx:40 | the request names the device and asks for `turn_on` exactly when `turnOn` |
| `App.OutcomeOf` | src/App.tsx:51-64 | a structured answer is a success outcome exactly when `success` is set, carrying the reported `newState` |
| `App.Resolve` | src/App.tsx:53-82 | after the answer, matching entries hold the reported state and `now` on success, and `!turnOn` with `lastSeen` unchanged on a failure or exception; every other entry and field is unchanged |
| `App.RollbackRestores` | src/App.tsx:42-60 | if every entry with the id held `!turnOn` before the call, the optimistic step followed by a failure or exception gives back the original list |
| `App.RollbackWithoutPreconditionDiffers` | src/App.tsx:53-60 | if some entry with the id already held `turnOn`, a failed toggle does not give back the original list |
| `App.UpdatesOfDistinctIdsCommute` | src/App.tsx:42-82 | replace-by-id updates of two different ids commute, so toggles of different devices do not interfere |
| `App.RollbackAfterOtherUpdate` | src/App.tsx:42-60 | a failed toggle still restores its own entries when an update of another device happened between the optimistic step and the answer |
| `App.ListedRequestMeetsRollback` | src/components/DeviceCard.tsx:33 | when the list has distinct ids and the card shows one of its entries, every entry with that id is that very device, so the card's request negates its state |
| `App.ResolveKeepsDistinctIds` | src/App.tsx:42-82 | the optimistic step and the resolution keep distinct ids distinct |
| `App.Filter` | src/App.tsx:94-96 | the filtered list is no longer than the list and holds exactly the entries that satisfy the predicate, each matching entry as often as in the list (as a multiset), so its length counts duplicates |
| `App.SummaryCounts` | src/App.tsx:94-96 | online count plus offline count equals the list length, and the active count is at most the online count |
| `App.ToggleSettles` | src/App.tsx:39-86 | for any list and transport table, a whole toggle keeps distinct ids distinct; after a success every local entry of the device holds the transport's stored state, which is the requested one; a failure or exception whose request negated every matching entry's state gives back the original list |
| `App.SameOnlineFlagsSameCount` | src/App.tsx:94 | two lists whose entries have the same online flags, position by position, have the same online count |
| `App.PowerUpdatesKeepOnlineCount` | src/App.tsx:42-96 | the optimistic step and its resolution never change the online count |
| `App.Dashboard.constructor` | src/App.tsx:15-18 | empty list, not scanning, never scanned, no error; the list has distinct ids |
| `App.Dashboard.BeginScan` | src/App.tsx:20-22 | scanning is set and the error is cleared; list and last scan time unchanged |
| `App.Dashboard.FinishScan` | src/App.tsx:24-36 | with a result, the list becomes the discovered list and the last scan time its timestamp; with a fault, list and last scan time are unchanged and the error is the fixed scan-failure message; scanning ends false either way |
| `App.Dashboard.ScanForDevices` | src/App.tsx:20-37 | a successful scan replaces the list with exactly the discovered sequence (distinct ids), sets the last scan time, and ends with no error and not scanning; a failed scan keeps list and time (so distinct ids stay distinct), sets "Failed to discover devices. Check network connection." and ends not scanning |
| `App.Dashboard.BeginToggle` | src/App.tsx:42-48 | the list becomes `SetPower` of the current list |
| `App.Dashboard.ResolveToggle` | src/App.tsx:50-85 | the list becomes `Resolve` of the list as it is when the answer arrives |
| `App.Dashboard.HandleDeviceToggle` | src/App.tsx:39-86 | never changes the error, the scanning flag or the last scan time; a list with distinct ids keeps them; an exception leaves the transport unchanged and rolls back; otherwise the transport does `Control` and the list is resolved with its outcome; after a success the local entries hold the transport's stored state, equal to `turnOn`; a failed toggle whose request negated every matching entry's state restores the list exactly |
| `DeviceCardLogic.DeviceIconsTotal` | src/components/DeviceCard.tsx:16-26 | the icon table has an entry for each of the five categories, so the lookup is total, and no two categories share an icon |
| `DeviceCardLogic.FormatLastSeen` | src/components/DeviceCard.tsx:39-49 | "just now" exactly when less than one whole minute elapsed (including a future timestamp); minutes for 1..59 whole minutes, hours 1..23, days at least 1, each the elapsed time in whole units; the four labels are disjoint and cover every input |
| `DeviceCardLogic.ToggleIntent` | src/components/DeviceCard.tsx:28-33 | nothing is requested exactly when a toggle is in flight or the device is offline; otherwise the request carries the device's own id and the negation of its power state |
| `DeviceCardLogic.IconFor` | src/components/DeviceCard.tsx:26 | the icon is the table entry for the device's category, and that entry always exists |
| `DeviceCardLogic.DeviceCard.constructor` | src/components/DeviceCard.tsx:25 | a new card has no toggle in flight |
| `DeviceCardLogic.DeviceCard.BeginHandleToggle` | src/components/DeviceCard.tsx:28-33 | the request is the guard's decision, and the in-flight flag is set exactly when a request is issued (or was already set) |
| `DeviceCardLogic.DeviceCard.EndHandleToggle` | src/components/DeviceCard.tsx:34-36 | the in-flight flag is cleared |
| `DeviceCardLogic.DeviceCard.HandleToggle` | src/components/DeviceCard.tsx:28-37 | while in flight or offline nothing changes; otherwise the transport's table becomes `Control`'s table for the card's id and negated state (unchanged on a transport exception), its key order is kept, a dashboard list with distinct ids keeps them, and the dashboard's list becomes the optimistic update resolved with the outcome of that call; after a success the listed entries show the requested state; a failure restores the dashboard's list when it has distinct ids and contains the card's device; the in-flight flag ends as it started |

## Left out

- Rendering (JSX, skeleton loaders, badges, card layout) and the switch's
  `disabled` attribute, which are presentation.
- Persistence of the device list and last scan time in a key-value store and
  React's state hooks: the controller's state is plain fields of `Dashboard`.
  Records persisted as JSON, whose `lastSeen` comes back as a string, are not
  modelled; `lastSeen` is always an integer.
- Toast notifications and their messages, which go to an external library.
- The artificial network delays and their timers, which do not affect any result.
- Probabilities: the random draws are boolean inputs, so the statistical
  reconnect property ("eventually observed online") is not stated.
- Clocks: one `now` stands for every clock read in one operation. The source
  reads the clock separately for each discovered device, for the discovery
  timestamp, and in the transport and the handler during a toggle. These reads
  may differ by a few milliseconds. The module-load clock is the single
  `loadTime` for all four seed records.
- Locale formatting of the last scan time and the ISO-8601 string it is stored
  as: `lastScan` is an optional integer, `None` meaning never scanned.
- Concurrency: overlapping toggles and scans are not modelled as a scheduling
  problem. `BeginToggle`/`ResolveToggle` and `BeginScan`/`FinishScan` let
  sequential interleavings be stated. `RollbackAfterOtherUpdate` covers an
  update of another device in between, and `RollbackWithoutPreconditionDiffers`
  covers a stale entry.
- The automatic scan when the dashboard mounts with an empty list, and the
  page reload behind the offline card's retry button, which are lifecycle
  wiring and browser I/O.
- Object aliasing in the transport: the source mutates the stored record
  object in place. The model replaces the value stored under the key, which
  is observationally the same because every accessor hands out copies.
- `DeviceCardLogic.DeviceCard.HandleToggle`: does not state that the flag is
  true while the dashboard call runs, because that is an intermediate state.
  It is asserted inside the body and stated by `BeginHandleToggle`.
