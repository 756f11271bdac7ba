/**
 One step of a device's polling task (`UpdateStates`): read the state of the
 configured zone and publish power, mute and the normalised volume level. The
 receiver is an oracle: a map from the zones it answers for at this moment to
 their state; a zone missing from it is a failed `GetState` call.
 */
module Polling {
  import opened Wrappers
  import opened Registry
  import opened Volume

  /** The native state of one zone as `GetState` returns it. */
  datatype ZoneState = ZoneState(power: bool, volume: real, muted: bool)

  /** The states published to the hub after a successful poll. */
  datatype Published = Published(level: real, muted: bool, power: bool)

  datatype PollError = StateUnavailable

  /** `UpdateStates`: fail without publishing when the zone cannot be read,
      otherwise publish its state with the volume normalised. */
  function UpdateStates(cfg: AvrConfig, receiver: map<int, ZoneState>, minVolume: real): (r: Result<Published, PollError>)
    requires cfg.zone in receiver ==> cfg.maxVolume != minVolume
    ensures r.Failure? <==> cfg.zone !in receiver
    ensures r.Failure? ==> r.error == StateUnavailable
    ensures r.Success? ==>
      && r.value.power == receiver[cfg.zone].power
      && r.value.muted == receiver[cfg.zone].muted
      && VolumeOf(r.value.level, cfg.maxVolume, minVolume) == receiver[cfg.zone].volume
  {
    if cfg.zone !in receiver then
      Failure(StateUnavailable)
    else
      var state := receiver[cfg.zone];
      Success(Published(Level(state.volume, cfg.maxVolume, minVolume), state.muted, state.power))
  }

  /** One tick of the `i`-th polling task started by the driver. A task polls
      with the record it was started on, whether or not its device is still in
      the device map. */
  function PollTick(d: Driver, i: nat, receiver: map<int, ZoneState>, minVolume: real): (r: Result<Published, PollError>)
    requires i < |d.pollers|
    requires d.pollers[i].zone in receiver ==> d.pollers[i].maxVolume != minVolume
    ensures r.Failure? <==> d.pollers[i].zone !in receiver
    ensures r.Success? ==>
      && r.value.power == receiver[d.pollers[i].zone].power
      && r.value.muted == receiver[d.pollers[i].zone].muted
      && VolumeOf(r.value.level, d.pollers[i].maxVolume, minVolume) == receiver[d.pollers[i].zone].volume
  {
    UpdateStates(d.pollers[i], receiver, minVolume)
  }

  /** A successful poll of a receiver at its configured maximum publishes level 1,
      and one at the minimum publishes level 0. */
  lemma PollAtLimits(cfg: AvrConfig, receiver: map<int, ZoneState>, minVolume: real)
    requires cfg.zone in receiver && cfg.maxVolume != minVolume
    ensures receiver[cfg.zone].volume == cfg.maxVolume ==> UpdateStates(cfg, receiver, minVolume).value.level == 1.0
    ensures receiver[cfg.zone].volume == minVolume ==> UpdateStates(cfg, receiver, minVolume).value.level == 0.0
  {
    LevelAtMax(cfg.maxVolume, minVolume);
    LevelAtMin(cfg.maxVolume, minVolume);
  }

  /** Saving a record for an ID that already has a device does not rebind
      anything: every polling task keeps reading the zone and maximum volume of
      the record it was started on, whatever the new record says. */
  lemma SaveKeepsPollingBinding(d: Driver, submitted: AvrConfig, probe: Probe, built: bool, sendOk: bool,
                                i: nat, receiver: map<int, ZoneState>, minVolume: real)
    requires probe.Identified? && probe.id in d.avrs
    requires i < |d.pollers|
    requires d.pollers[i].zone in receiver ==> d.pollers[i].maxVolume != minVolume
    ensures var r := SaveAvr(d, submitted, probe, built, sendOk).driver;
            i < |r.pollers| && PollTick(r, i, receiver, minVolume) == PollTick(d, i, receiver, minVolume)
  {
  }

  /** Deleting a receiver does not stop anything: every polling task, the
      deleted device's included, goes on polling exactly as before. */
  lemma DeleteKeepsPolling(d: Driver, id: string, sendOk: bool, i: nat, receiver: map<int, ZoneState>, minVolume: real)
    requires i < |d.pollers|
    requires d.pollers[i].zone in receiver ==> d.pollers[i].maxVolume != minVolume
    ensures var r := DeleteAvr(d, id, sendOk).driver;
            i < |r.pollers| && PollTick(r, i, receiver, minVolume) == PollTick(d, i, receiver, minVolume)
  {
  }

  /** After a delete the removed device is gone from both maps, but a polling
      task bound to its record is still running. */
  lemma DeletedDeviceStillPolled(d: Driver, id: string, sendOk: bool)
    requires Valid(d) && id in d.devices
    ensures var r := DeleteAvr(d, id, sendOk).driver;
            id !in r.avrs && id !in r.devices && d.devices[id].config in r.pollers
  {
  }
}
