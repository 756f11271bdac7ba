/**
 The device registry of the Yamaha AV receiver driver: the configuration map
 `config.AVRs` and the map of live device handles `devices`, both keyed by the
 receiver's serial ID, and the transitions that change them.

 Network and hub effects are oracle inputs: the identity probe is a `Probe`
 value, device construction is a `bool`, and the status of publishing the
 configuration event is a `bool`.
 */
module Registry {
  import opened Wrappers

  /** The update interval (seconds) given to a record that left it at zero. */
  const DefaultUpdateInterval: int := 5

  /** One configured receiver: the embedded network identity (IP, ID, name,
      model) followed by the driver's own settings. */
  datatype AvrConfig = AvrConfig(
    ip: string,
    id: string,
    name: string,
    model: string,
    volumeIncrement: real,
    maxVolume: real,
    zones: int,
    zone: int,
    updateInterval: int)

  /** A live device handle. It is bound to the record it was constructed from:
      its control closures and its polling task read that record and no other. */
  datatype Device = Device(config: AvrConfig)

  /** The driver's state: configuration records, live devices, and the polling
      tasks started so far. A polling task is started with every device, holds
      the record the device was built from, and is never stopped: deleting a
      receiver or replacing its device in the map leaves the task running. */
  datatype Driver = Driver(avrs: map<string, AvrConfig>, devices: map<string, Device>, pollers: seq<AvrConfig>)

  /** Outcome of the network identity probe: unreachable, or the serial ID and
      model the receiver reported. */
  datatype Probe = Unreachable | Identified(id: string, model: string)

  datatype Error =
    | NotReachable      // the identity probe failed
    | DeviceNotCreated  // the device constructor failed
    | EventNotSent      // publishing the configuration event failed

  /** What a registry transition leaves behind: the new state, the configuration
      event it published (if it got that far), and the error it returns. */
  datatype Step = Step(driver: Driver, event: Option<map<string, AvrConfig>>, status: Outcome<Error>)

  /** What `createAVRDevice` leaves behind. Because the Go code works on a pointer,
      the (possibly defaulted) record is part of the result. */
  datatype Creation = Creation(driver: Driver, config: AvrConfig, status: Outcome<Error>)

  /** The driver as constructed: no devices, no records (a nil map reads as
      empty) and no polling tasks. */
  function NewDriver(): (d: Driver)
    ensures |d.avrs| == 0 && |d.devices| == 0 && |d.pollers| == 0
  {
    Driver(map[], map[], [])
  }

  /** Every live device has a configuration record. */
  ghost predicate DevicesConfigured(d: Driver) {
    d.devices.Keys <= d.avrs.Keys
  }

  /** Every record is stored under its own serial ID. */
  ghost predicate KeyedById(avrs: map<string, AvrConfig>) {
    forall k :: k in avrs ==> avrs[k].id == k
  }

  /** Every device is stored under the serial ID of the record it is bound to. */
  ghost predicate DevicesKeyedById(devices: map<string, Device>) {
    forall k :: k in devices ==> devices[k].config.id == k
  }

  /** Every live device has a polling task bound to the same record. */
  ghost predicate DevicesPolled(d: Driver) {
    forall k :: k in d.devices ==> d.devices[k].config in d.pollers
  }

  /** The structural invariant of the registry. */
  ghost predicate Valid(d: Driver) {
    DevicesConfigured(d) && KeyedById(d.avrs) && DevicesKeyedById(d.devices) && DevicesPolled(d)
  }

  /** The update-interval rule of `createAVRDevice`: zero means "use the default". */
  function WithDefaultInterval(cfg: AvrConfig): (c: AvrConfig)
    ensures c.updateInterval != 0
    ensures cfg.updateInterval != 0 ==> c == cfg
    ensures c == cfg.(updateInterval := c.updateInterval)
    ensures cfg.updateInterval == 0 ==> c.updateInterval == DefaultUpdateInterval
  {
    if cfg.updateInterval == 0 then cfg.(updateInterval := DefaultUpdateInterval) else cfg
  }

  /** `createAVRDevice`: construct a device for `cfg` (outcome `built`); on
      success default the update interval, start a polling task on the
      defaulted record and register the device under the record's ID. The
      configuration map is never touched here. */
  function CreateAvrDevice(d: Driver, cfg: AvrConfig, built: bool): (r: Creation)
    ensures r.status.Fail? <==> !built
    ensures !built ==> r.driver == d && r.config == cfg && r.status == Fail(DeviceNotCreated)
    ensures r.driver.avrs == d.avrs
    ensures built ==> r.config == WithDefaultInterval(cfg)
    ensures built ==> r.driver.devices.Keys == d.devices.Keys + {cfg.id}
    ensures built ==> r.driver.devices[cfg.id] == Device(r.config)
    ensures forall k :: k in d.devices && k != cfg.id ==> k in r.driver.devices && r.driver.devices[k] == d.devices[k]
    ensures built ==> r.driver.pollers == d.pollers + [r.config]
  {
    if !built then
      Creation(d, cfg, Fail(DeviceNotCreated))
    else
      var c := WithDefaultInterval(cfg);
      Creation(d.(devices := d.devices[cfg.id := Device(c)], pollers := d.pollers + [c]), c, Pass)
  }

  /** The submitted record as the successful probe leaves it: serial ID and model
      filled in, every other field as submitted. */
  function Probed(submitted: AvrConfig, probe: Probe): (c: AvrConfig)
    requires probe.Identified?
    ensures c.id == probe.id && c.model == probe.model
    ensures c.(id := submitted.id, model := submitted.model) == submitted
  {
    submitted.(id := probe.id, model := probe.model)
  }

  /** `saveAVR`: probe the receiver; for a known ID replace its record, for a
      new ID first create a device and then insert the record; finally publish
      the configuration event, whose status is the result. */
  function SaveAvr(d: Driver, submitted: AvrConfig, probe: Probe, built: bool, sendOk: bool): (r: Step)
    // a failed probe changes nothing and publishes nothing
    ensures probe.Unreachable? ==> r == Step(d, None, Fail(NotReachable))
    // a known ID: the record is replaced wholesale, devices and polling tasks are left alone
    ensures probe.Identified? && probe.id in d.avrs ==>
      && r.driver.avrs == d.avrs[probe.id := Probed(submitted, probe)]
      && r.driver.devices == d.devices
      && r.driver.pollers == d.pollers
    // a new ID whose device cannot be built: nothing changes, nothing is published
    ensures probe.Identified? && probe.id !in d.avrs && !built ==>
      r == Step(d, None, Fail(DeviceNotCreated))
    // a new ID: one device, one polling task and one record, all with the defaulted interval
    ensures probe.Identified? && probe.id !in d.avrs && built ==>
      && r.driver.avrs == d.avrs[probe.id := WithDefaultInterval(Probed(submitted, probe))]
      && r.driver.devices == d.devices[probe.id := Device(WithDefaultInterval(Probed(submitted, probe)))]
      && r.driver.pollers == d.pollers + [WithDefaultInterval(Probed(submitted, probe))]
    // both successful paths publish the configuration and return the event's status
    ensures probe.Identified? && (probe.id in d.avrs || built) ==>
      r.event == Some(r.driver.avrs) && r.status == SendEvent(sendOk)
    // once the maps are updated the event carries the new configuration;
    // its failure is reported but does not undo anything
    ensures r.event.Some? ==> r.event.value == r.driver.avrs
    ensures r.event.Some? ==> r.status == (if sendOk then Pass else Fail(EventNotSent))
    ensures r.event.None? ==> r.driver == d && r.status.Fail?
  {
    match probe
    case Unreachable => Step(d, None, Fail(NotReachable))
    case Identified(id, _) =>
      var avr := Probed(submitted, probe);
      if id in d.avrs then
        var d' := d.(avrs := d.avrs[id := avr]);
        Step(d', Some(d'.avrs), SendEvent(sendOk))
      else
        var c := CreateAvrDevice(d, avr, built);
        if c.status.Fail? then
          Step(d, None, c.status)
        else
          var d' := c.driver.(avrs := c.driver.avrs[id := c.config]);
          Step(d', Some(d'.avrs), SendEvent(sendOk))
  }

  /** The status returned by publishing the configuration event. */
  function SendEvent(sendOk: bool): (s: Outcome<Error>)
    ensures s.Pass? <==> sendOk
    ensures s.Fail? ==> s.error == EventNotSent
  {
    if sendOk then Pass else Fail(EventNotSent)
  }

  /** `deleteAVR`: drop the ID from both maps and publish the configuration.
      The device's polling task is not stopped. */
  function DeleteAvr(d: Driver, id: string, sendOk: bool): (r: Step)
    ensures r.driver.avrs.Keys == d.avrs.Keys - {id}
    ensures r.driver.devices.Keys == d.devices.Keys - {id}
    ensures forall k :: k in r.driver.avrs ==> r.driver.avrs[k] == d.avrs[k]
    ensures forall k :: k in r.driver.devices ==> r.driver.devices[k] == d.devices[k]
    ensures r.driver.pollers == d.pollers
    ensures id !in d.avrs && id !in d.devices ==> r.driver == d
    ensures r.event == Some(r.driver.avrs)
    ensures r.status == SendEvent(sendOk)
  {
    var d' := Driver(d.avrs - {id}, d.devices - {id}, d.pollers);
    Step(d', Some(d'.avrs), SendEvent(sendOk))
  }
}
