/**
 Properties of the registry transitions that relate several calls or hold
 across all of them: the invariant every live device has a record, the
 save/delete round trip, and the behaviour of repeated saves.
 */
module RegistryProps {
  import opened Wrappers
  import opened Registry

  /** Saving never leaves a device without a record, whatever the oracles say. */
  lemma SaveKeepsDevicesConfigured(d: Driver, submitted: AvrConfig, probe: Probe, built: bool, sendOk: bool)
    requires DevicesConfigured(d)
    ensures DevicesConfigured(SaveAvr(d, submitted, probe, built, sendOk).driver)
  {
  }

  /** Saving preserves the full registry invariant. */
  lemma SavePreservesValid(d: Driver, submitted: AvrConfig, probe: Probe, built: bool, sendOk: bool)
    requires Valid(d)
    ensures Valid(SaveAvr(d, submitted, probe, built, sendOk).driver)
  {
  }

  /** Deleting preserves the full registry invariant. */
  lemma DeletePreservesValid(d: Driver, id: string, sendOk: bool)
    requires Valid(d)
    ensures Valid(DeleteAvr(d, id, sendOk).driver)
  {
  }

  /** A save adds at most one device, one record and one polling task. */
  lemma SaveGrowsByAtMostOne(d: Driver, submitted: AvrConfig, probe: Probe, built: bool, sendOk: bool)
    ensures |SaveAvr(d, submitted, probe, built, sendOk).driver.devices| <= |d.devices| + 1
    ensures |SaveAvr(d, submitted, probe, built, sendOk).driver.avrs| <= |d.avrs| + 1
    ensures |SaveAvr(d, submitted, probe, built, sendOk).driver.pollers| <= |d.pollers| + 1
  {
  }

  /** Deleting a receiver that was just added returns both maps to their state
      before the save. The polling task the save started keeps running. */
  lemma SaveThenDeleteRestores(d: Driver, submitted: AvrConfig, probe: Probe, built: bool, sendOk: bool, sendOk': bool)
    requires Valid(d)
    requires probe.Identified? && probe.id !in d.avrs
    ensures var e := DeleteAvr(SaveAvr(d, submitted, probe, built, sendOk).driver, probe.id, sendOk').driver;
            && e.avrs == d.avrs
            && e.devices == d.devices
            && e.pollers == d.pollers + (if built then [WithDefaultInterval(Probed(submitted, probe))] else [])
  {
  }

  /** Deleting twice is the same as deleting once. */
  lemma DeleteIdempotent(d: Driver, id: string, sendOk: bool, sendOk': bool)
    ensures DeleteAvr(DeleteAvr(d, id, sendOk).driver, id, sendOk').driver == DeleteAvr(d, id, sendOk).driver
  {
  }

  /** Two successful saves that probe the same serial ID leave exactly one record
      for it, holding the second submission (its address included), and no
      device or polling task beyond the one the first save created. */
  lemma SaveTwiceSameId(d: Driver, first: AvrConfig, second: AvrConfig, probe: Probe, built: bool, built': bool,
                        sendOk: bool, sendOk': bool)
    requires probe.Identified?
    requires SaveAvr(d, first, probe, built, sendOk).event.Some?
    ensures var r1 := SaveAvr(d, first, probe, built, sendOk).driver;
            var r2 := SaveAvr(r1, second, probe, built', sendOk').driver;
            && r2.avrs.Keys == d.avrs.Keys + {probe.id}
            && r2.avrs[probe.id] == Probed(second, probe)
            && r2.avrs[probe.id].ip == second.ip
            && r2.devices == r1.devices
            && r2.pollers == r1.pollers
            && r2.devices.Keys <= d.devices.Keys + {probe.id}
  {
  }

  /** The update path applies no interval default: saving the same record with
      a zero interval twice stores the default the first time (for a new ID)
      and zero the second time. */
  lemma SaveTwiceDropsDefault(d: Driver, submitted: AvrConfig, probe: Probe, sendOk: bool, sendOk': bool)
    requires probe.Identified? && probe.id !in d.avrs
    requires submitted.updateInterval == 0
    ensures var r1 := SaveAvr(d, submitted, probe, true, sendOk).driver;
            var r2 := SaveAvr(r1, submitted, probe, true, sendOk').driver;
            && r1.avrs[probe.id].updateInterval == DefaultUpdateInterval
            && r2.avrs[probe.id].updateInterval == 0
            && r2.devices[probe.id].config.updateInterval == DefaultUpdateInterval
  {
  }

  /** The number of polling tasks bound to a record with serial ID `id`. */
  function PollersFor(pollers: seq<AvrConfig>, id: string): nat
  {
    if |pollers| == 0 then 0
    else PollersFor(pollers[..|pollers| - 1], id) + (if pollers[|pollers| - 1].id == id then 1 else 0)
  }

  /** Saving a new receiver, deleting it and saving it again leaves one device
      for it but two more polling tasks on it: the first one was never stopped. */
  lemma ResaveAfterDeleteDoublesPolling(d: Driver, first: AvrConfig, second: AvrConfig, probe: Probe,
                                        sendOk: bool, sendOk': bool, sendOk'': bool)
    requires probe.Identified? && probe.id !in d.avrs
    ensures var r1 := SaveAvr(d, first, probe, true, sendOk).driver;
            var r2 := DeleteAvr(r1, probe.id, sendOk').driver;
            var r3 := SaveAvr(r2, second, probe, true, sendOk'').driver;
            && r3.devices.Keys == d.devices.Keys + {probe.id}
            && PollersFor(r3.pollers, probe.id) == PollersFor(d.pollers, probe.id) + 2
  {
  }

  /** A configuration action dispatched to the registry. */
  datatype Request =
    | Save(submitted: AvrConfig, probe: Probe, built: bool, sendOk: bool)
    | Delete(id: string, sendOk: bool)

  function Apply(d: Driver, req: Request): Driver {
    match req
    case Save(submitted, probe, built, sendOk) => SaveAvr(d, submitted, probe, built, sendOk).driver
    case Delete(id, sendOk) => DeleteAvr(d, id, sendOk).driver
  }

  /** The registry after a sequence of configuration actions, in order. */
  function Run(d: Driver, reqs: seq<Request>): Driver
    decreases |reqs|
  {
    if |reqs| == 0 then d else Run(Apply(d, reqs[0]), reqs[1..])
  }

  /** Any sequence of saves and deletes, with any probe, construction and event
      outcomes, keeps the registry invariant. */
  lemma {:induction false} RunPreservesValid(d: Driver, reqs: seq<Request>)
    requires Valid(d)
    ensures Valid(Run(d, reqs))
    decreases |reqs|
  {
    if |reqs| > 0 {
      match reqs[0] {
        case Save(submitted, probe, built, sendOk) => SavePreservesValid(d, submitted, probe, built, sendOk);
        case Delete(id, sendOk) => DeletePreservesValid(d, id, sendOk);
      }
      RunPreservesValid(Apply(d, reqs[0]), reqs[1..]);
    }
  }
}
