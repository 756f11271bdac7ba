/**
 `Driver.Start`: install the loaded configuration and try to create a device
 for every record in it. The loop visits the keys in an unspecified order, as
 Go's map iteration does; construction failures are logged and skipped.
 */
module RegistryStart {
  import opened Wrappers
  import opened Registry

  /** The record a key ends up with after `Start`: the device constructor works
      on the record in place, so a created device defaults its interval there. */
  function StartedRecord(avrs: map<string, AvrConfig>, failures: set<string>, k: string): AvrConfig
    requires k in avrs
  {
    if k in failures then avrs[k] else WithDefaultInterval(avrs[k])
  }

  /** Visiting one more key adds one to the count of successful visits exactly
      when its construction succeeds. */
  lemma StartedGrows(done: set<string>, failures: set<string>, k: string)
    requires k !in done
    ensures |(done + {k}) - failures| == |done - failures| + (if k in failures then 0 else 1)
  {
    if k !in failures {
      assert (done + {k}) - failures == (done - failures) + {k};
    } else {
      assert (done + {k}) - failures == done - failures;
    }
  }

  /** Some key of `keys` whose device construction succeeds holds a record of
      `cfg` with ID `x`. */
  ghost predicate Claimed(cfg: map<string, AvrConfig>, failures: set<string>, keys: set<string>, x: string) {
    exists k :: k in keys && k in cfg && k !in failures && cfg[k].id == x
  }

  /** The keys of `keys` whose device construction succeeds and whose polling
      task runs on the record `c`. */
  ghost function StartedOn(cfg: map<string, AvrConfig>, failures: set<string>, keys: set<string>, c: AvrConfig): set<string> {
    set j | j in keys && j in cfg && j !in failures && WithDefaultInterval(cfg[j]) == c
  }

  /** Visiting key `k` adds `k` to the keys behind record `c` exactly when its
      construction succeeds and `c` is its defaulted record. */
  lemma StartedOnGrows(cfg: map<string, AvrConfig>, failures: set<string>, done: set<string>, k: string, c: AvrConfig)
    requires k in cfg && k !in done
    ensures |StartedOn(cfg, failures, done + {k}, c)| ==
            |StartedOn(cfg, failures, done, c)| + (if k !in failures && WithDefaultInterval(cfg[k]) == c then 1 else 0)
  {
    if k !in failures && WithDefaultInterval(cfg[k]) == c {
      assert StartedOn(cfg, failures, done + {k}, c) == StartedOn(cfg, failures, done, c) + {k};
    } else {
      assert StartedOn(cfg, failures, done + {k}, c) == StartedOn(cfg, failures, done, c);
    }
  }

  /** `Start` with the loaded configuration (`None` for a nil map) and the set
      of keys whose device construction fails. */
  method Start(d: Driver, loaded: Option<map<string, AvrConfig>>, failures: set<string>) returns (r: Driver)
    // the configuration is installed with exactly the loaded keys; only the
    // update interval of records that got a device may change
    ensures r.avrs.Keys == (if loaded.None? then {} else loaded.value.Keys)
    ensures loaded.Some? ==> forall k :: k in loaded.value ==>
      r.avrs[k] == StartedRecord(loaded.value, failures, k)
    // every record whose construction succeeds has a device under its ID
    ensures loaded.Some? ==> forall k :: k in loaded.value && k !in failures ==> loaded.value[k].id in r.devices
    // an ID that a successful loaded record carries gets a device built from
    // such a record, replacing any old one; every other device is an old one
    ensures forall x :: x in r.devices ==>
      if loaded.Some? && Claimed(loaded.value, failures, loaded.value.Keys, x) then
        exists k :: k in loaded.value && k !in failures && loaded.value[k].id == x
                    && r.devices[x] == Device(WithDefaultInterval(loaded.value[k]))
      else
        x in d.devices && r.devices[x] == d.devices[x]
    ensures d.devices.Keys <= r.devices.Keys
    // one polling task is started per successful record, after the old ones
    ensures |d.pollers| <= |r.pollers| && r.pollers[..|d.pollers|] == d.pollers
    ensures |r.pollers| == |d.pollers| + |r.avrs.Keys - failures|
    ensures loaded.Some? ==> forall c :: c in r.pollers[|d.pollers|..] ==>
      exists k :: k in loaded.value && k !in failures && c == WithDefaultInterval(loaded.value[k])
    ensures loaded.Some? ==> forall k :: k in loaded.value && k !in failures ==> WithDefaultInterval(loaded.value[k]) in r.pollers
    ensures loaded.Some? ==> forall c :: multiset(r.pollers[|d.pollers|..])[c] == |StartedOn(loaded.value, failures, loaded.value.Keys, c)|
    // a live device that was there before keeps its polling task; a new one has one
    ensures DevicesPolled(d) ==> DevicesPolled(r)
  {
    var cfg: map<string, AvrConfig> := if loaded.None? then map[] else loaded.value;
    var avrs, devices, started := StartLoop(cfg, d.devices, failures);
    r := Driver(avrs, devices, d.pollers + started);
    assert r.pollers[..|d.pollers|] == d.pollers;
    assert r.pollers[|d.pollers|..] == started;
  }

  /** The state the loop of `Start` carries: the records being installed, the
      devices, and the polling tasks started so far. */
  datatype LoopState = LoopState(avrs: map<string, AvrConfig>, devices: map<string, Device>, started: seq<AvrConfig>)

  /** One iteration of `Start`: try to create the device of key `k`; on success
      its record is defaulted in place and a polling task is started on it. */
  function Visit(s: LoopState, k: string, built: bool): (s': LoopState)
    requires k in s.avrs
    ensures !built ==> s' == s
    ensures built ==>
      && s'.avrs == s.avrs[k := WithDefaultInterval(s.avrs[k])]
      && s'.devices == s.devices[s.avrs[k].id := Device(WithDefaultInterval(s.avrs[k]))]
      && s'.started == s.started + [WithDefaultInterval(s.avrs[k])]
  {
    var c := CreateAvrDevice(Driver(s.avrs, s.devices, s.started), s.avrs[k], built);
    LoopState(s.avrs[k := c.config], c.driver.devices, c.driver.pollers)
  }

  /** Records: visited keys hold their started record, the others are untouched. */
  ghost predicate RecordsSoFar(cfg: map<string, AvrConfig>, failures: set<string>, done: set<string>, s: LoopState) {
    && done <= cfg.Keys
    && s.avrs.Keys == cfg.Keys
    && (forall k :: k in cfg && k !in done ==> s.avrs[k] == cfg[k])
    && (forall k :: k in done ==> s.avrs[k] == StartedRecord(cfg, failures, k))
  }

  /** Devices: every visited success has a device; a device whose ID a visited
      success carries was built from such a record, and every other device is
      an old one. */
  ghost predicate DevicesSoFar(cfg: map<string, AvrConfig>, failures: set<string>, done: set<string>,
                               devices0: map<string, Device>, s: LoopState) {
    && done <= cfg.Keys
    && (forall k :: k in done && k !in failures ==> cfg[k].id in s.devices)
    && (forall x :: x in s.devices ==>
         if Claimed(cfg, failures, done, x) then
           exists k :: k in done && k !in failures && cfg[k].id == x
                       && s.devices[x] == Device(WithDefaultInterval(cfg[k]))
         else
           x in devices0 && s.devices[x] == devices0[x])
    && devices0.Keys <= s.devices.Keys
  }

  /** Polling tasks: one per visited success, and every new device has one. */
  ghost predicate PollersSoFar(cfg: map<string, AvrConfig>, failures: set<string>, done: set<string>,
                               devices0: map<string, Device>, s: LoopState) {
    && done <= cfg.Keys
    && |s.started| == |done - failures|
    && (forall c :: c in s.started ==>
         exists k :: k in done && k !in failures && c == WithDefaultInterval(cfg[k]))
    && (forall k :: k in done && k !in failures ==> WithDefaultInterval(cfg[k]) in s.started)
    && (forall x :: x in s.devices ==> (x in devices0 && s.devices[x] == devices0[x]) || s.devices[x].config in s.started)
    && (forall c :: multiset(s.started)[c] == |StartedOn(cfg, failures, done, c)|)
  }

  lemma VisitRecords(cfg: map<string, AvrConfig>, failures: set<string>, done: set<string>, s: LoopState, k: string, built: bool)
    requires RecordsSoFar(cfg, failures, done, s) && k in cfg && k !in done && (built <==> k !in failures)
    ensures RecordsSoFar(cfg, failures, done + {k}, Visit(s, k, built))
  {
  }

  lemma VisitDevices(cfg: map<string, AvrConfig>, failures: set<string>, done: set<string>,
                     devices0: map<string, Device>, s: LoopState, k: string, built: bool)
    requires DevicesSoFar(cfg, failures, done, devices0, s)
    requires k in cfg && k !in done && (built <==> k !in failures) && k in s.avrs && s.avrs[k] == cfg[k]
    ensures DevicesSoFar(cfg, failures, done + {k}, devices0, Visit(s, k, built))
  {
  }

  lemma VisitPollers(cfg: map<string, AvrConfig>, failures: set<string>, done: set<string>,
                     devices0: map<string, Device>, s: LoopState, k: string, built: bool)
    requires PollersSoFar(cfg, failures, done, devices0, s)
    requires k in cfg && k !in done && (built <==> k !in failures) && k in s.avrs && s.avrs[k] == cfg[k]
    ensures PollersSoFar(cfg, failures, done + {k}, devices0, Visit(s, k, built))
  {
    StartedGrows(done, failures, k);
    var s' := Visit(s, k, built);
    if built {
      var c0 := WithDefaultInterval(cfg[k]);
      assert s'.started == s.started + [c0];
      forall c | c in s'.started
        ensures exists j :: j in done + {k} && j !in failures && c == WithDefaultInterval(cfg[j])
      {
        if c != c0 {
          assert c in s.started;
        }
      }
    }
    VisitCounts(cfg, failures, done, s, k, built);
  }

  /** A visit keeps the number of tasks on each record equal to the number of
      successful visited keys behind it. */
  lemma VisitCounts(cfg: map<string, AvrConfig>, failures: set<string>, done: set<string>,
                    s: LoopState, k: string, built: bool)
    requires forall c :: multiset(s.started)[c] == |StartedOn(cfg, failures, done, c)|
    requires k in cfg && k !in done && (built <==> k !in failures) && k in s.avrs && s.avrs[k] == cfg[k]
    ensures forall c :: multiset(Visit(s, k, built).started)[c] == |StartedOn(cfg, failures, done + {k}, c)|
  {
    forall c ensures multiset(Visit(s, k, built).started)[c] == |StartedOn(cfg, failures, done + {k}, c)| {
      StartedOnGrows(cfg, failures, done, k, c);
    }
  }

  /** What the loop of `Start` has established after visiting the keys `done`. */
  ghost predicate SoFar(cfg: map<string, AvrConfig>, failures: set<string>, done: set<string>,
                        devices0: map<string, Device>, s: LoopState) {
    && RecordsSoFar(cfg, failures, done, s)
    && DevicesSoFar(cfg, failures, done, devices0, s)
    && PollersSoFar(cfg, failures, done, devices0, s)
  }

  lemma VisitKeeps(cfg: map<string, AvrConfig>, failures: set<string>, done: set<string>,
                   devices0: map<string, Device>, s: LoopState, k: string, built: bool)
    requires SoFar(cfg, failures, done, devices0, s)
    requires k in cfg && k !in done && (built <==> k !in failures)
    ensures SoFar(cfg, failures, done + {k}, devices0, Visit(s, k, built))
  {
    VisitRecords(cfg, failures, done, s, k, built);
    VisitDevices(cfg, failures, done, devices0, s, k, built);
    VisitPollers(cfg, failures, done, devices0, s, k, built);
  }

  /** The loop of `Start` over the keys of `cfg`, from the devices `devices0`:
      the installed records, the devices, and the polling tasks it starts. */
  method StartLoop(cfg: map<string, AvrConfig>, devices0: map<string, Device>, failures: set<string>)
    returns (avrs: map<string, AvrConfig>, devices: map<string, Device>, started: seq<AvrConfig>)
    ensures avrs.Keys == cfg.Keys
    ensures forall k :: k in cfg ==> avrs[k] == StartedRecord(cfg, failures, k)
    ensures forall k :: k in cfg && k !in failures ==> cfg[k].id in devices
    ensures forall x :: x in devices ==>
      if Claimed(cfg, failures, cfg.Keys, x) then
        exists k :: k in cfg && k !in failures && cfg[k].id == x
                    && devices[x] == Device(WithDefaultInterval(cfg[k]))
      else
        x in devices0 && devices[x] == devices0[x]
    ensures devices0.Keys <= devices.Keys
    ensures |started| == |cfg.Keys - failures|
    ensures forall c :: c in started ==>
      exists k :: k in cfg && k !in failures && c == WithDefaultInterval(cfg[k])
    ensures forall k :: k in cfg && k !in failures ==> WithDefaultInterval(cfg[k]) in started
    ensures forall x :: x in devices ==> (x in devices0 && devices[x] == devices0[x]) || devices[x].config in started
    ensures forall c :: multiset(started)[c] == |StartedOn(cfg, failures, cfg.Keys, c)|
  {
    var s := VisitAll(cfg, devices0, failures);
    FinishLoop(cfg, failures, devices0, s);
    avrs, devices, started := s.avrs, s.devices, s.started;
  }

  /** The loop itself: visit every key of `cfg` once, in an unspecified order. */
  method VisitAll(cfg: map<string, AvrConfig>, devices0: map<string, Device>, failures: set<string>) returns (s: LoopState)
    ensures SoFar(cfg, failures, cfg.Keys, devices0, s)
  {
    s := LoopState(cfg, devices0, []);
    var done: set<string> := {};
    while done != cfg.Keys
      invariant SoFar(cfg, failures, done, devices0, s)
      decreases cfg.Keys - done
    {
      var k :| k in cfg && k !in done;
      var built := k !in failures;
      VisitKeeps(cfg, failures, done, devices0, s, k, built);
      s := Visit(s, k, built);
      done := done + {k};
    }
    assert done == cfg.Keys;
  }

  /** The loop predicates over the whole configuration, spelled out as what
      `StartLoop` promises. */
  lemma FinishLoop(cfg: map<string, AvrConfig>, failures: set<string>, devices0: map<string, Device>, s: LoopState)
    requires SoFar(cfg, failures, cfg.Keys, devices0, s)
    ensures s.avrs.Keys == cfg.Keys
    ensures forall k :: k in cfg ==> s.avrs[k] == StartedRecord(cfg, failures, k)
    ensures forall k :: k in cfg && k !in failures ==> cfg[k].id in s.devices
    ensures forall x :: x in s.devices ==>
      if Claimed(cfg, failures, cfg.Keys, x) then
        exists k :: k in cfg && k !in failures && cfg[k].id == x
                    && s.devices[x] == Device(WithDefaultInterval(cfg[k]))
      else
        x in devices0 && s.devices[x] == devices0[x]
    ensures devices0.Keys <= s.devices.Keys
    ensures |s.started| == |cfg.Keys - failures|
    ensures forall c :: c in s.started ==>
      exists k :: k in cfg && k !in failures && c == WithDefaultInterval(cfg[k])
    ensures forall k :: k in cfg && k !in failures ==> WithDefaultInterval(cfg[k]) in s.started
    ensures forall x :: x in s.devices ==> (x in devices0 && s.devices[x] == devices0[x]) || s.devices[x].config in s.started
    ensures forall c :: multiset(s.started)[c] == |StartedOn(cfg, failures, cfg.Keys, c)|
  {
  }

  /** Starting the freshly constructed driver on a configuration whose records
      are keyed by their own IDs yields a valid registry in which each created
      device is bound to the record now stored under its key. */
  method StartFromNew(loaded: Option<map<string, AvrConfig>>, failures: set<string>) returns (r: Driver)
    requires loaded.Some? ==> KeyedById(loaded.value)
    ensures Valid(r)
    ensures forall k :: k in r.avrs ==> (k in r.devices <==> k !in failures)
    ensures forall k :: k in r.devices ==> r.devices[k] == Device(r.avrs[k])
    ensures |r.pollers| == |r.devices|
  {
    r := Start(NewDriver(), loaded, failures);
    var cfg: map<string, AvrConfig> := if loaded.None? then map[] else loaded.value;
    assert KeyedById(cfg);
    // with records keyed by their own IDs, the record behind device x is cfg[x]
    forall x | x in r.devices
      ensures x in cfg && x !in failures && r.devices[x] == Device(WithDefaultInterval(cfg[x]))
    {
      var k :| k in cfg && k !in failures && cfg[k].id == x
               && r.devices[x] == Device(WithDefaultInterval(cfg[k]));
      assert k == x;
    }
    assert r.devices.Keys == r.avrs.Keys - failures;
  }
}
