# Yamaha AV receiver driver: device registry model

This project models the device registry of a Ninja Sphere driver for Yamaha AV
receivers. The driver keeps two maps, both keyed by the receiver's serial ID:
the configuration records (`config.AVRs`) and the live device handles
(`devices`). Four transitions change them:

- `Start` installs the loaded configuration and tries to create a device for every record, skipping failures.
- `createAVRDevice` builds one device and applies the default update interval.
- `saveAVR` probes a receiver, then either updates its record or adds a new one with a device.
- `deleteAVR` removes a receiver from both maps.

The model also covers one polling step (`UpdateStates`). It maps the
receiver's volume to a level that is 0 at the minimum volume and 1 at the
configured maximum, with no clamping.

Everything on the network or the hub is an input to the model:

- The identity probe (`GetXMLData`) is a `Probe`: unreachable, or the serial ID and model it reported.
- The device constructor is a `bool`. For `Start` it is the set of map keys whose construction fails.
- The status returned by `SendEvent` is a `bool`.
- The receiver's answer to `GetState` is a map from the zones it answers for to their state.
- `ync.MinVolume` is a parameter, because its value is not part of this model.

A device is modelled as the record it was built from. Its control closures and
its polling task hold a pointer to that record. When `saveAVR` updates an
existing ID, it stores a new record but leaves the device alone. So the
device's polling keeps using the old zone, maximum volume and interval until
the driver restarts (`Polling.SaveKeepsPollingBinding`). Edits to an existing
receiver's zone or maximum volume therefore reach its device only after a
restart. The model follows the code here.

Each successful device creation starts a polling task that runs forever.
Nothing in the driver stops one. The model keeps these tasks as a third part
of the state, `pollers`: the records the running tasks poll with, in the order
they were started. `deleteAVR` removes the entries from both maps but leaves
every task running (`Polling.DeletedDeviceStillPolled`). A receiver that is
saved, deleted and saved again as new has one device but two tasks
(`RegistryProps.ResaveAfterDeleteDoublesPolling`). `Start` starts one task per key
whose device was built, even when two records share an ID and so share
one device entry.

Two more details come from the code:

- `createAVRDevice` defaults the interval on the same record that `Start`
  installed. After `Start`, a record whose device was created has a non-zero
  interval, and a record whose construction failed keeps 0.
- `Start` registers each device under its record's `id` field, not under the
  map key. So the invariant "every device has a record" after `Start` needs
  every record to be stored under its own ID. `saveAVR` always stores records
  that way (`Registry.KeyedById`).

Modules: `Wrappers` (Option, Result, Outcome), `Registry` (state and
transitions), `RegistryStart` (`Start` and its loop), `RegistryProps` (lemmas over
transitions), `Volume` (normalisation), `Polling` (`UpdateStates`).

## Model

| member | source | states |
|---|---|---|
| Registry.NewDriver | driver.go:47-50 | a new driver has no devices, no records and no polling tasks |
| Registry.WithDefaultInterval | driver.go:114-116 | an interval of 0 becomes 5 (`defaultUpdateInterval`), a non-zero one is kept, and no other field changes |
| Registry.CreateAvrDevice | driver.go:105-130 | a failed construction changes nothing and returns an error; a successful one starts one polling task and registers a device, both bound to the defaulted record, under the record's ID, and never touches the configuration map |
| Registry.Probed | driver.go:135-143 | a successful probe sets the serial ID and model and keeps every other submitted field |
| Registry.SaveAvr | driver.go:133-159 | a failed probe returns an error, changes nothing and publishes no event; a known ID has its record replaced wholesale, and the devices and polling tasks are unchanged; a new ID whose construction fails changes nothing; a new ID that succeeds gets one device, one polling task and one record, all with the defaulted interval; on both successful paths the event is sent with the updated configuration and its status is returned, and its failure does not undo anything |
| Registry.SendEvent | driver.go:158 | the returned status is an error exactly when publishing fails |
| Registry.DeleteAvr | driver.go:163-171 | the ID leaves both maps, every other entry is kept, no polling task is stopped, an absent ID leaves the state unchanged, and the event is always sent; the status is an error exactly when sending fails, as for `saveAVR` |
| RegistryStart.Start | driver.go:67-85 | a nil map is installed as empty; exactly the loaded keys are installed, and only records that got a device have their interval defaulted; every successful record has a device under its ID; a device whose ID some successful record carries was built from such a record, replacing any device already there, and every other device is an old one kept unchanged; the new polling tasks come after the old ones, and each record runs in exactly as many new tasks as there are successful keys holding it, so two keys with the same record give two tasks; failures are skipped |
| RegistryStart.StartFromNew | driver.go:48-78 | starting a new driver on records stored under their own IDs gives a valid registry: a key has a device exactly when its construction succeeded, that device is bound to the stored record, and there is one polling task per device |
| RegistryStart.StartLoop | driver.go:76-127 | after visiting every key once, in any order, each record is installed defaulted exactly when its device was built; every ID a successful record carries has a device built from such a record, replacing any earlier one, every other device is kept unchanged, and the started tasks run on each record exactly as many times as successful keys hold it |
| RegistryStart.Visit | driver.go:77 | one visit leaves the state alone when construction fails, and otherwise defaults the record in place, registers its device and starts its polling task |
| RegistryProps.SaveKeepsDevicesConfigured | driver.go:146-157 | after any save, every device still has a configuration record |
| RegistryProps.SavePreservesValid | driver.go:146-157 | a save keeps all four parts of the invariant: devices have records, records are stored under their own IDs, devices are stored under their record's ID, and every device's record has a running polling task |
| RegistryProps.DeletePreservesValid | driver.go:163-166 | a delete keeps the registry invariant |
| RegistryProps.SaveGrowsByAtMostOne | driver.go:146-157 | a save adds at most one device, one record and one polling task |
| RegistryProps.SaveThenDeleteRestores | driver.go:151-166 | deleting a receiver that was just saved as new returns both maps to their state before the save, while the polling task the save started keeps running |
| RegistryProps.DeleteIdempotent | driver.go:163-166 | deleting the same ID twice gives the same state as deleting it once |
| RegistryProps.SaveTwiceSameId | driver.go:146-150 | two saves that probe the same serial ID leave one record holding the second submission and its address, and no second device or polling task |
| RegistryProps.ResaveAfterDeleteDoublesPolling | driver.go:118-166 | saving a new receiver, deleting it and saving it again leaves one device entry for it but two more polling tasks on it |
| RegistryProps.SaveTwiceDropsDefault | driver.go:114-156 | the update path does not default the interval: saving a zero-interval record twice stores 5 and then 0, while the device keeps 5 |
| RegistryProps.RunPreservesValid | configuration.go:64-85 | any sequence of saves and deletes, with any probe, construction and event outcome, keeps the registry invariant |
| Volume.Level | driver.go:94-96 | the level times the range (maximum minus minimum volume) equals the volume minus the minimum |
| Volume.VolumeOf | driver.go:95-96 | the inverse mapping sends level 0 to the minimum volume and level 1 to the maximum |
| Volume.LevelAtMin | driver.go:95-96 | the minimum volume normalises to 0 |
| Volume.LevelAtMax | driver.go:95-96 | the configured maximum volume normalises to 1 |
| Volume.VolumeOfLevel | driver.go:95-96 | normalising a volume and mapping it back gives the same volume |
| Volume.LevelOfVolume | driver.go:95-96 | mapping a level to a volume and normalising it gives the same level |
| Volume.LevelMonotone | driver.go:95-96 | with maximum above minimum, the level preserves and reflects both `<=` and `<` between volumes |
| Volume.LevelInUnitRange | driver.go:95-96 | there is no clamping: the level is in [0, 1] exactly when the volume is between the minimum and the maximum |
| Polling.UpdateStates | driver.go:88-101 | the poll fails, publishing nothing, exactly when the configured zone cannot be read; otherwise it publishes that zone's power and mute, and a level whose inverse is the zone's volume |
| Polling.PollTick | driver.go:118-125 | a tick of a running polling task reads the record the task was started on, whether or not its device is still in the map; it fails exactly when that record's zone cannot be read, and otherwise publishes that zone's power and mute state and a level that maps back to its volume under the task's configured maximum |
| Polling.PollAtLimits | driver.go:94-99 | a zone at the configured maximum publishes level 1, and one at the minimum publishes level 0 |
| Polling.SaveKeepsPollingBinding | driver.go:146-150 | updating an existing ID does not change what any polling task reads or publishes |
| Polling.DeleteKeepsPolling | driver.go:163-166 | a delete leaves every polling task running, reading and publishing exactly as before |
| Polling.DeletedDeviceStillPolled | driver.go:162-166 | after a delete the receiver is in neither map, but a polling task bound to its device's record is still running |

## Left out

- configuration.go: it builds configuration screens and dispatches form actions. Only the fact that "save" and "delete" call the registry is used, as the request sequence in `RegistryProps.Run`.
- device.go: its closures forward to the receiver's network library and to hub publish calls, whose code is not part of this model. The model keeps only the record each device is bound to.
- The timing and interleaving of the polling goroutines (driver.go:118-125): the `time.Sleep` cadence and the concurrency are not modelled. The tasks themselves are kept in `pollers`, and one `UpdateStates` call of one task is one step (`Polling.PollTick`).
- The `device != nil` test inside the poller: a successfully constructed device is never nil in the model.
- `makeNewDevice`, `GetXMLData`, `GetState`, `SendEvent`, `Init`, `Export` and `MustExportService`: these are network or hub effects. They are inputs or statuses. `Start` always returns nil, and `NewDriver`'s fatal exits are not modelled.
- The probe is assumed to fill in only the serial ID and model. The network library is not part of this model.
- Error messages, logging and the `%+v` dumps: only the error kinds are kept.
- Volume.Level: computes over `real`, not `float64`. It requires the maximum volume to differ from `ync.MinVolume`: the driver divides by that difference unguarded, and at zero `float64` gives an infinity or NaN.
- Volume.LevelMonotone: requires the maximum to be above the minimum, because with a reversed range the order is reversed.
- RegistryStart.StartFromNew: requires every loaded record to be stored under its own ID. The driver does not check this. A configuration persisted by `saveAVR` always satisfies it.
- Calls before `Start`: the configuration map is then nil. `deleteAVR` on a nil map deletes nothing and still sends the event, as the model does. `saveAVR` fails normally on a failed probe or a failed construction. On the new-ID path it panics at the map write (driver.go:156), after the device has been registered and its polling task started. The model inserts the record instead. The configuration service that calls these functions is exported only by `Start` (driver.go:80), so configuration.go cannot reach this case.
