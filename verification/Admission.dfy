/** Admission of enclaves into the model pools (manager/manager.go): only attested hosts whose measurement
    matches the signed release of the model are ever in a pool. */
module Admission {
  import opened Text

  type Name = string
  type Host = string
  type Key = string
  type Tag = string
  type Measurement = string

  /** Outcome of fetching and verifying a host's attestation document. */
  datatype Evidence =
    | FetchFailed
    | Invalid
    | Verified(measurement: Measurement, tlsKey: Key, needsHardware: bool, hardwareOk: bool)

  datatype Enclave = Enclave(host: Host, tlsKey: Key)

  datatype OverloadConfig = OverloadConfig(maxRequestsWaiting: int, retryAfterMinutes: int)

  datatype ModelConfig = ModelConfig(repo: string, hostnames: seq<Host>, overload: Option<OverloadConfig>)

  /** The measurement comparison of the attestation library. */
  type Matcher = (Measurement, Measurement) -> bool

  datatype ModelState = ModelState(
    repo: string, tag: Tag, source: Option<Measurement>, enclaves: map<Host, Enclave>, overload: Option<OverloadConfig>)

  // ---- The critical sections, on values ----

  predicate Admits(matches: Matcher, m: ModelState, e: Evidence) {
    && e.Verified? && (e.needsHardware ==> e.hardwareOk)
    && m.source.Some? && matches(e.measurement, m.source.value)
  }

  /** A pooled host whose TLS key is still the pinned one is left alone. */
  predicate Unchanged(m: ModelState, host: Host, probedKey: Option<Key>) {
    host in m.enclaves && probedKey == Some(m.enclaves[host].tlsKey)
  }

  function AddHost(matches: Matcher, m: ModelState, host: Host, probedKey: Option<Key>, e: Evidence): ModelState {
    if Unchanged(m, host, probedKey) || !Admits(matches, m, e) then m
    else m.(enclaves := m.enclaves[host := Enclave(host, e.tlsKey)])
  }

  function CommitRelease(m: ModelState, tag: Tag, measurement: Measurement): ModelState {
    m.(tag := tag, source := Some(measurement), enclaves := map[])
  }

  function ApplyConfig(m: ModelState, cfg: ModelConfig): ModelState {
    m.(overload := cfg.overload,
       enclaves := map host | host in m.enclaves && host in cfg.hostnames :: m.enclaves[host])
  }

  const U64: int := 0x1_0000_0000_0000_0000

  /** One served model, with the sections that run under its lock. */
  class Model {
    const repo: string
    var tag: Tag
    var source: Option<Measurement>
    var enclaves: map<Host, Enclave>
    var overload: Option<OverloadConfig>
    var counter: int

    constructor (cfg: ModelConfig)
      ensures View() == ModelState(cfg.repo, "", None, map[], cfg.overload) && counter == 0
    {
      repo, tag, source, enclaves, overload, counter := cfg.repo, "", None, map[], cfg.overload, 0;
    }

    function View(): ModelState
      reads this
    {
      ModelState(repo, tag, source, enclaves, overload)
    }

    /** Verifies a host and puts it into the pool; the old entry stays when anything fails. */
    method AddEnclave(matches: Matcher, host: Host, probedKey: Option<Key>, e: Evidence) returns (ok: bool)
      modifies this`enclaves
      ensures View() == AddHost(matches, old(View()), host, probedKey, e)
      ensures var pooled := host in old(enclaves) && probedKey == Some(old(enclaves)[host].tlsKey);
              var admitted := e.Verified? && (e.needsHardware ==> e.hardwareOk)
                              && source.Some? && matches(e.measurement, source.value);
              && (ok <==> pooled || admitted)
              && (pooled || !admitted ==> enclaves == old(enclaves))
              && (!pooled && admitted ==>
                    && host in enclaves && enclaves[host] == Enclave(host, e.tlsKey)
                    && forall h :: h != host ==>
                         && (h in enclaves <==> h in old(enclaves))
                         && (h in enclaves ==> enclaves[h] == old(enclaves)[h]))
    {
      if host in enclaves {
        var current := enclaves[host];
        if probedKey.Some? && current.tlsKey == probedKey.value {
          return true;
        }
      }
      if e.FetchFailed? || e.Invalid? {
        return false;
      }
      if e.needsHardware && !e.hardwareOk {
        return false;
      }
      if source.None? || !matches(e.measurement, source.value) {
        return false;
      }
      enclaves := enclaves[host := Enclave(host, e.tlsKey)];
      return true;
    }

    /** A new release: the measurements of all pooled enclaves are now invalid. */
    method Commit(newTag: Tag, measurement: Measurement)
      modifies this
      ensures View() == CommitRelease(old(View()), newTag, measurement) && counter == old(counter)
      ensures tag == newTag && source == Some(measurement) && enclaves == map[] && overload == old(overload)
    {
      tag := newTag;
      source := Some(measurement);
      enclaves := map[];
    }

    /** Takes over the overload settings and drops the hosts that are no longer configured. */
    method Configure(cfg: ModelConfig)
      modifies this
      ensures View() == ApplyConfig(old(View()), cfg) && counter == old(counter)
      ensures tag == old(tag) && source == old(source) && overload == cfg.overload
      ensures forall h :: h in enclaves <==> h in old(enclaves) && h in cfg.hostnames
      ensures forall h :: h in enclaves ==> enclaves[h] == old(enclaves)[h]
    {
      overload := cfg.overload;
      var pending := enclaves.Keys;
      while pending != {}
        invariant pending <= enclaves.Keys && counter == old(counter)
        invariant tag == old(tag) && source == old(source) && overload == cfg.overload
        invariant forall h :: h in enclaves <==> h in old(enclaves) && (h in pending || h in cfg.hostnames)
        invariant forall h :: h in enclaves ==> enclaves[h] == old(enclaves)[h]
        decreases |pending|
      {
        var host :| host in pending;
        if host !in cfg.hostnames {
          enclaves := enclaves - {host};
        }
        pending := pending - {host};
      }
    }

    /** The enclave for the next request: some member of the pool, none only if the pool is empty. */
    method NextEnclave() returns (enclave: Option<Enclave>)
      modifies this`counter
      ensures counter == (old(counter) + 1) % U64
      ensures enclave.None? <==> enclaves == map[]
      ensures enclave.Some? ==> enclave.value in enclaves.Values
    {
      counter := (counter + 1) % U64;
      if |enclaves| == 0 {
        return None;
      }
      var pool: seq<Enclave> := [];
      var pending := enclaves.Keys;
      while pending != {}
        invariant pending <= enclaves.Keys
        invariant |pool| + |pending| == |enclaves.Keys|
        invariant forall i :: 0 <= i < |pool| ==> pool[i] in enclaves.Values
        decreases |pending|
      {
        var host :| host in pending;
        pool := pool + [enclaves[host]];
        pending := pending - {host};
      }
      assert |pool| == |enclaves|;
      return Some(pool[(counter - 1) % U64 % |pool|]);
    }
  }

  // ---- The protocol ----

  /** Where the goroutine that syncs one model stands. */
  datatype Task =
    | Idle                                                       // this sync is over for the model
    | FetchingTag(cfg: ModelConfig)
    | VerifyingRelease(cfg: ModelConfig, tag: Tag)
    | Committing(cfg: ModelConfig, tag: Tag, measurement: Measurement)
    | Configuring(cfg: ModelConfig)
    | Adding(cfg: ModelConfig, next: nat)

  /** A release whose signature was verified for a repository. */
  datatype Release = Release(repo: string, tag: Tag, measurement: Measurement)

  /** An attestation that was verified for a host. */
  datatype Attestation = Attestation(host: Host, measurement: Measurement, tlsKey: Key, hardwareChecked: bool)

  /** `releases` and `attestations` record every successful verification of the run so far. */
  datatype System = System(
    models: map<Name, ModelState>,
    tasks: map<Name, Task>,
    config: map<Name, ModelConfig>,      // of the sync in progress, or of the last one
    releases: set<Release>,
    attestations: set<Attestation>)

  /** One step of some goroutine, with the outcome of what it called. */
  datatype Action =
    | StartSync(config: map<Name, ModelConfig>)
    | TagFetched(name: Name, tag: Option<Tag>)
    | ReleaseVerified(name: Name, measurement: Option<Measurement>)
    | Commit(name: Name)
    | Configure(name: Name)
    | AddNext(name: Name, probedKey: Option<Key>, evidence: Evidence)

  function Start(config: map<Name, ModelConfig>): System {
    System(map n | n in config :: ModelState(config[n].repo, "", None, map[], config[n].overload),
           map n | n in config :: Idle, map[], {}, {})
  }

  /** The first thing a model's goroutine does: nothing if the model left the config or changed its repo. */
  function Spawned(m: ModelState, config: map<Name, ModelConfig>, name: Name): Task {
    if name in config && config[name].repo == m.repo then FetchingTag(config[name]) else Idle
  }

  predicate SyncOver(s: System) {
    forall n :: n in s.tasks ==> s.tasks[n].Idle?
  }

  predicate Enabled(s: System, a: Action) {
    match a
    case StartSync(_) => SyncOver(s)
    case TagFetched(n, _) => n in s.tasks && n in s.models && s.tasks[n].FetchingTag?
    case ReleaseVerified(n, _) => n in s.tasks && n in s.models && s.tasks[n].VerifyingRelease?
    case Commit(n) => n in s.tasks && n in s.models && s.tasks[n].Committing?
    case Configure(n) => n in s.tasks && n in s.models && s.tasks[n].Configuring?
    case AddNext(n, _, _) => n in s.tasks && n in s.models && s.tasks[n].Adding?
  }

  function Goto(s: System, name: Name, t: Task): System {
    s.(tasks := s.tasks[name := t])
  }

  function SetModel(s: System, name: Name, m: ModelState): System {
    s.(models := s.models[name := m])
  }

  function Step(matches: Matcher, s: System, a: Action): System
    requires Enabled(s, a)
  {
    match a
    case StartSync(config) =>
      s.(config := config, tasks := map n | n in s.models :: Spawned(s.models[n], config, n))
    case TagFetched(n, tag) =>
      var cfg := s.tasks[n].cfg;
      if tag.None? || tag.value == s.models[n].tag then Goto(s, n, Configuring(cfg))
      else Goto(s, n, VerifyingRelease(cfg, tag.value))
    case ReleaseVerified(n, measurement) =>
      var t := s.tasks[n];
      if measurement.None? then Goto(s, n, Configuring(t.cfg))
      else
        Goto(s, n, Committing(t.cfg, t.tag, measurement.value)).(
          releases := s.releases + {Release(s.models[n].repo, t.tag, measurement.value)})
    case Commit(n) =>
      var t := s.tasks[n];
      SetModel(Goto(s, n, Configuring(t.cfg)), n, CommitRelease(s.models[n], t.tag, t.measurement))
    case Configure(n) =>
      var cfg := s.tasks[n].cfg;
      SetModel(Goto(s, n, if |cfg.hostnames| == 0 then Idle else Adding(cfg, 0)), n, ApplyConfig(s.models[n], cfg))
    case AddNext(n, probedKey, e) =>
      var t := s.tasks[n];
      if t.next >= |t.cfg.hostnames| then Goto(s, n, Idle)
      else
        var host := t.cfg.hostnames[t.next];
        var s1 := SetModel(Goto(s, n, if t.next + 1 < |t.cfg.hostnames| then Adding(t.cfg, t.next + 1) else Idle),
                           n, AddHost(matches, s.models[n], host, probedKey, e));
        if e.Verified? && !Unchanged(s.models[n], host, probedKey) then
          s1.(attestations := s.attestations
                + {Attestation(host, e.measurement, e.tlsKey, !e.needsHardware || e.hardwareOk)})
        else s1
  }

  /** The state after a run; actions that are not enabled do nothing. */
  function Run(matches: Matcher, s: System, actions: seq<Action>): System {
    if actions == [] then s
    else
      var before := Run(matches, s, actions[..|actions| - 1]);
      var a := actions[|actions| - 1];
      if Enabled(before, a) then Step(matches, before, a) else before
  }

  // ---- Safety ----

  /** An enclave is trusted when some attestation verified for its host pins its TLS key and matches the
      model's signed source measurement. */
  predicate Trusted(matches: Matcher, s: System, m: ModelState, host: Host) {
    && host in m.enclaves && m.enclaves[host].host == host
    && m.source.Some?
    && exists a :: a in s.attestations && Vouches(matches, a, m, host)
  }

  predicate Vouches(matches: Matcher, a: Attestation, m: ModelState, host: Host) {
    && host in m.enclaves && m.source.Some?
    && a.host == host && a.tlsKey == m.enclaves[host].tlsKey && a.hardwareChecked
    && matches(a.measurement, m.source.value)
  }

  predicate PoolTrusted(matches: Matcher, s: System, m: ModelState) {
    forall host :: host in m.enclaves ==> Trusted(matches, s, m, host)
  }

  /** The source measurement, if any, was verified for the model's own repository and tag. */
  predicate Anchored(s: System, m: ModelState) {
    m.source.Some? ==> Release(m.repo, m.tag, m.source.value) in s.releases
  }

  /** A goroutine works on its model's entry of the config, and what it commits was verified. */
  predicate TaskSound(s: System, name: Name, m: ModelState, t: Task) {
    && (!t.Idle? ==> name in s.config && s.config[name] == t.cfg && t.cfg.repo == m.repo)
    && (t.Committing? ==> Release(m.repo, t.tag, t.measurement) in s.releases)
    && (t.Adding? ==> m.enclaves.Keys <= Listed(t.cfg))
    && (t.Adding? ==> t.next < |t.cfg.hostnames|)
    && (t.Idle? && name in s.config && s.config[name].repo == m.repo ==> m.enclaves.Keys <= Listed(s.config[name]))
  }

  function Listed(cfg: ModelConfig): set<Host> {
    set h | h in cfg.hostnames
  }

  predicate ModelSafe(matches: Matcher, s: System, name: Name)
    requires name in s.models && name in s.tasks
  {
    && PoolTrusted(matches, s, s.models[name])
    && Anchored(s, s.models[name])
    && TaskSound(s, name, s.models[name], s.tasks[name])
  }

  predicate Safe(matches: Matcher, config: map<Name, ModelConfig>, s: System) {
    && s.models.Keys == config.Keys == s.tasks.Keys
    && (forall n :: n in config ==> s.models[n].repo == config[n].repo)
    && (forall n :: n in s.models ==> n in s.tasks && ModelSafe(matches, s, n))
  }

  /** Learning more never withdraws trust. */
  predicate Extends(s: System, s': System) {
    s.releases <= s'.releases && s.attestations <= s'.attestations && s.config == s'.config
  }

  lemma StillSafe(matches: Matcher, s: System, s': System, name: Name)
    requires name in s.models && name in s.tasks && ModelSafe(matches, s, name) && Extends(s, s')
    requires name in s'.models && name in s'.tasks
    requires s'.models[name] == s.models[name] && s'.tasks[name] == s.tasks[name]
    ensures ModelSafe(matches, s', name)
  {
    PoolStillTrusted(matches, s, s', s.models[name]);
  }

  lemma PoolStillTrusted(matches: Matcher, s: System, s': System, m: ModelState)
    requires PoolTrusted(matches, s, m) && s.attestations <= s'.attestations
    ensures PoolTrusted(matches, s', m)
  {
    forall host | host in m.enclaves ensures Trusted(matches, s', m, host) {
      assert Trusted(matches, s, m, host);
      var a :| a in s.attestations && Vouches(matches, a, m, host);
      assert a in s'.attestations;
    }
  }

  /** A pruned pool is trusted if the whole one was. */
  lemma PruneKeepsTrust(matches: Matcher, s: System, m: ModelState, cfg: ModelConfig)
    requires PoolTrusted(matches, s, m)
    ensures PoolTrusted(matches, s, ApplyConfig(m, cfg))
  {
    var m' := ApplyConfig(m, cfg);
    forall host | host in m'.enclaves ensures Trusted(matches, s, m', host) {
      assert Trusted(matches, s, m, host);
      var a :| a in s.attestations && Vouches(matches, a, m, host);
      assert Vouches(matches, a, m', host);
    }
  }

  /** Adding a host keeps the pool trusted, once its attestation is on record. */
  lemma AddKeepsTrust(
      matches: Matcher, s: System, s': System, m: ModelState, host: Host, probedKey: Option<Key>, e: Evidence)
    requires PoolTrusted(matches, s, m) && s.attestations <= s'.attestations
    requires e.Verified? && !Unchanged(m, host, probedKey) ==>
               Attestation(host, e.measurement, e.tlsKey, !e.needsHardware || e.hardwareOk) in s'.attestations
    ensures PoolTrusted(matches, s', AddHost(matches, m, host, probedKey, e))
  {
    var m' := AddHost(matches, m, host, probedKey, e);
    PoolStillTrusted(matches, s, s', m);
    forall h | h in m'.enclaves ensures Trusted(matches, s', m', h) {
      if m' != m && h == host {
        var a := Attestation(host, e.measurement, e.tlsKey, !e.needsHardware || e.hardwareOk);
        assert Vouches(matches, a, m', h);
      } else {
        assert Trusted(matches, s', m, h);
        var a :| a in s'.attestations && Vouches(matches, a, m, h);
        assert Vouches(matches, a, m', h);
      }
    }
  }

  /** Every step of every goroutine keeps its own model safe. */
  lemma OwnModelStaysSafe(matches: Matcher, s: System, a: Action)
    requires Enabled(s, a) && !a.StartSync? && ModelSafe(matches, s, a.name)
    ensures ModelSafe(matches, Step(matches, s, a), a.name)
    ensures Extends(s, Step(matches, s, a))
  {
    hide PoolTrusted;
    var s', m := Step(matches, s, a), s.models[a.name];
    match a {
      case TagFetched(_, _) => PoolStillTrusted(matches, s, s', m);
      case ReleaseVerified(_, _) => PoolStillTrusted(matches, s, s', m);
      case Commit(_) =>
        assert PoolTrusted(matches, s', s'.models[a.name]) by {
          EmptyPoolTrusted(matches, s', s'.models[a.name]);
        }
      case Configure(_) =>
        PruneKeepsTrust(matches, s, m, s.tasks[a.name].cfg);
        PoolStillTrusted(matches, s, s', s'.models[a.name]);
      case AddNext(n, probedKey, e) =>
        var t := s.tasks[n];
        var host := t.cfg.hostnames[t.next];
        AddKeepsTrust(matches, s, s', m, host, probedKey, e);
        assert host in Listed(t.cfg);
    }
  }

  lemma EmptyPoolTrusted(matches: Matcher, s: System, m: ModelState)
    requires m.enclaves == map[]
    ensures PoolTrusted(matches, s, m)
  {
  }

  /** A new sync touches no model; its goroutines start from the new config. */
  lemma SyncStartsSafe(matches: Matcher, s: System, a: Action, name: Name)
    requires a.StartSync? && Enabled(s, a) && name in s.models && name in s.tasks && ModelSafe(matches, s, name)
    ensures name in Step(matches, s, a).tasks
    ensures ModelSafe(matches, Step(matches, s, a), name)
  {
    PoolStillTrusted(matches, s, Step(matches, s, a), s.models[name]);
  }

  /** One step leaves the other models and their goroutines alone. */
  lemma StepIsLocal(matches: Matcher, s: System, a: Action)
    requires Enabled(s, a) && !a.StartSync?
    ensures Step(matches, s, a).models.Keys == s.models.Keys && Step(matches, s, a).tasks.Keys == s.tasks.Keys
    ensures Step(matches, s, a).models[a.name].repo == s.models[a.name].repo
    ensures forall n :: n in s.models && n != a.name ==> Step(matches, s, a).models[n] == s.models[n]
    ensures forall n :: n in s.tasks && n != a.name ==> Step(matches, s, a).tasks[n] == s.tasks[n]
  {
    hide Admits, Unchanged, ApplyConfig;
    if a.Configure? {
      assert ApplyConfig(s.models[a.name], s.tasks[a.name].cfg).repo == s.models[a.name].repo by {
        ConfigKeepsRepo(s.models[a.name], s.tasks[a.name].cfg);
      }
    }
  }

  lemma ConfigKeepsRepo(m: ModelState, cfg: ModelConfig)
    ensures ApplyConfig(m, cfg).repo == m.repo
  {
  }

  lemma StepKeepsSafe(matches: Matcher, config: map<Name, ModelConfig>, s: System, a: Action)
    requires Safe(matches, config, s) && Enabled(s, a)
    ensures Safe(matches, config, Step(matches, s, a))
  {
    hide ModelSafe, Extends;
    var s' := Step(matches, s, a);
    if a.StartSync? {
      forall n | n in s'.models ensures n in s'.tasks && ModelSafe(matches, s', n) {
        SyncStartsSafe(matches, s, a, n);
      }
    } else {
      hide Step;
      StepIsLocal(matches, s, a);
      OwnModelStaysSafe(matches, s, a);
      forall n | n in s'.models ensures n in s'.tasks && ModelSafe(matches, s', n) {
        if n != a.name {
          StillSafe(matches, s, s', n);
        }
      }
    }
  }

  /** Over every run, whatever the update configs, the fetched releases and the attestations, and however the
      goroutines interleave, all of the above holds of every reachable state. */
  lemma {:induction false} RunStaysSafe(matches: Matcher, config: map<Name, ModelConfig>, actions: seq<Action>)
    ensures Safe(matches, config, Run(matches, Start(config), actions))
  {
    hide Step, Enabled, ModelSafe;
    if actions == [] {
      forall n | n in config ensures ModelSafe(matches, Start(config), n) {
        EmptyPoolTrusted(matches, Start(config), Start(config).models[n]);
        StartModelSafe(matches, config, n);
      }
    } else {
      var before := Run(matches, Start(config), actions[..|actions| - 1]);
      RunStaysSafe(matches, config, actions[..|actions| - 1]);
      if Enabled(before, actions[|actions| - 1]) {
        StepKeepsSafe(matches, config, before, actions[|actions| - 1]);
      }
    }
  }

  lemma StartModelSafe(matches: Matcher, config: map<Name, ModelConfig>, n: Name)
    requires n in config
    ensures ModelSafe(matches, Start(config), n)
  {
  }

  /** Whatever enclave a reader picks, in any reachable state, some attestation verified for its host pins the
      TLS key in use and matches a source measurement that was verified for the configured repository. */
  lemma ServedEnclaveIsVerified(
      matches: Matcher, config: map<Name, ModelConfig>, actions: seq<Action>, n: Name, enclave: Enclave)
    requires n in config && n in Run(matches, Start(config), actions).models
    requires enclave in Run(matches, Start(config), actions).models[n].enclaves.Values
    ensures exists a, r ::
      && a in Run(matches, Start(config), actions).attestations && r in Run(matches, Start(config), actions).releases
      && a.host == enclave.host && a.tlsKey == enclave.tlsKey && a.hardwareChecked
      && r.repo == config[n].repo && r.tag == Run(matches, Start(config), actions).models[n].tag
      && matches(a.measurement, r.measurement)
  {
    RunStaysSafe(matches, config, actions);
    var s := Run(matches, Start(config), actions);
    hide Run, Start;
    var m := s.models[n];
    assert ModelSafe(matches, s, n);
    var host :| host in m.enclaves && m.enclaves[host] == enclave;
    assert Trusted(matches, s, m, host);
    var a :| a in s.attestations && Vouches(matches, a, m, host);
    var r := Release(m.repo, m.tag, m.source.value);
    assert r in s.releases;
  }

  /** The models are those of the initial config and keep their repositories, and once a sync is over the pool
      of each model still configured with its repository holds only hosts that its entry lists. */
  lemma PoolsFollowConfig(matches: Matcher, config: map<Name, ModelConfig>, actions: seq<Action>)
    ensures var s := Run(matches, Start(config), actions);
      && s.models.Keys == config.Keys
      && (forall n :: n in config ==> s.models[n].repo == config[n].repo)
      && (SyncOver(s) ==> forall n, h ::
            (n in config && n in s.config && s.config[n].repo == config[n].repo && h in s.models[n].enclaves) ==>
              h in s.config[n].hostnames)
  {
    RunStaysSafe(matches, config, actions);
    var s := Run(matches, Start(config), actions);
    hide Run, Start, PoolTrusted;
    if SyncOver(s) {
      forall n, h | n in config && n in s.config && s.config[n].repo == config[n].repo && h in s.models[n].enclaves
        ensures h in s.config[n].hostnames
      {
        assert ModelSafe(matches, s, n);
        assert s.tasks[n].Idle?;
        assert h in Listed(s.config[n]);
      }
    }
  }

  // ---- What gets into a pool, and how long it stays ----

  predicate Pooled(s: System, n: Name, host: Host, key: Key) {
    n in s.models && host in s.models[n].enclaves && s.models[n].enclaves[host] == Enclave(host, key)
  }

  /** The next host of the model attests, with matching measurement and, where it needs to, known hardware. */
  predicate Attests(matches: Matcher, s: System, n: Name, e: Evidence)
    requires n in s.models
  {
    && e.Verified? && (e.needsHardware ==> e.hardwareOk)
    && s.models[n].source.Some? && matches(e.measurement, s.models[n].source.value)
  }

  predicate NextHost(s: System, n: Name, host: Host) {
    && n in s.models && n in s.tasks && s.tasks[n].Adding?
    && s.tasks[n].next < |s.tasks[n].cfg.hostnames| && s.tasks[n].cfg.hostnames[s.tasks[n].next] == host
  }

  lemma AttestedStep(matches: Matcher, s: System, n: Name, host: Host, probedKey: Option<Key>, e: Evidence)
    requires NextHost(s, n, host) && Attests(matches, s, n, e)
    requires host in s.models[n].enclaves ==> probedKey != Some(s.models[n].enclaves[host].tlsKey)
    ensures Pooled(Step(matches, s, AddNext(n, probedKey, e)), n, host, e.tlsKey)
    ensures forall other, key :: other != host ==>
              (Pooled(Step(matches, s, AddNext(n, probedKey, e)), n, other, key) <==> Pooled(s, n, other, key))
  {
  }

  /** In every run, the next host is pooled under the key it attests, unless it was pooled and still presents the
      key it was pooled with; the other hosts stay as they are. */
  lemma AttestedIsPooled(matches: Matcher, start: System, actions: seq<Action>, n: Name, host: Host,
                         probedKey: Option<Key>, e: Evidence)
    requires var s := Run(matches, start, actions);
             && NextHost(s, n, host) && Attests(matches, s, n, e)
             && (host in s.models[n].enclaves ==> probedKey != Some(s.models[n].enclaves[host].tlsKey))
    ensures Pooled(Run(matches, start, actions + [AddNext(n, probedKey, e)]), n, host, e.tlsKey)
    ensures forall other, key :: other != host ==>
              (Pooled(Run(matches, start, actions + [AddNext(n, probedKey, e)]), n, other, key)
               <==> Pooled(Run(matches, start, actions), n, other, key))
  {
    hide Run, Step, Pooled, Attests;
    var s := Run(matches, start, actions);
    AttestedStep(matches, s, n, host, probedKey, e);
    RunAppend(matches, start, actions, AddNext(n, probedKey, e));
  }

  /** The actions that take a pooled host out, or replace its key. */
  predicate Evicts(matches: Matcher, s: System, a: Action, n: Name, host: Host, key: Key) {
    match a
    case Commit(m) => m == n
    case Configure(m) => m == n && n in s.tasks && s.tasks[n].Configuring? && host !in s.tasks[n].cfg.hostnames
    case AddNext(m, probedKey, e) =>
      m == n && NextHost(s, n, host) && Attests(matches, s, n, e) && e.tlsKey != key && probedKey != Some(key)
    case _ => false
  }

  /** A pooled host stays, with its key, through every step but these. */
  lemma StaysPooledExactly(matches: Matcher, s: System, a: Action, n: Name, host: Host, key: Key)
    requires Enabled(s, a) && Pooled(s, n, host, key)
    ensures Pooled(Step(matches, s, a), n, host, key) <==> !Evicts(matches, s, a, n, host, key)
  {
  }

  predicate NeverEvicted(
      matches: Matcher, start: System, actions: seq<Action>, from: nat, n: Name, host: Host, key: Key)
  {
    |actions| > from ==>
      && NeverEvicted(matches, start, actions[..|actions| - 1], from, n, host, key)
      && !Evicts(matches, Run(matches, start, actions[..|actions| - 1]), actions[|actions| - 1], n, host, key)
  }

  /** Over every run: once pooled, a host serves under its key until its model's next release, a config that no
      longer lists it, or a new attestation under another key. */
  lemma {:induction false} PooledUntilEvicted(
      matches: Matcher, start: System, actions: seq<Action>, from: nat, n: Name, host: Host, key: Key)
    requires from <= |actions| && Pooled(Run(matches, start, actions[..from]), n, host, key)
    requires NeverEvicted(matches, start, actions, from, n, host, key)
    ensures Pooled(Run(matches, start, actions), n, host, key)
  {
    hide Step, Enabled, Evicts, Pooled;
    if from == |actions| {
      assert actions[..from] == actions;
    } else {
      var front, a := actions[..|actions| - 1], actions[|actions| - 1];
      assert front[..from] == actions[..from];
      PooledUntilEvicted(matches, start, front, from, n, host, key);
      if Enabled(Run(matches, start, front), a) {
        StaysPooledExactly(matches, Run(matches, start, front), a, n, host, key);
      }
    }
  }

  // ---- A sync in which everything succeeds ----

  /** The first steps of a sync of one model to a new release. */
  function Opening(config: map<Name, ModelConfig>, n: Name, tag: Tag, measurement: Measurement): seq<Action> {
    [StartSync(config), TagFetched(n, Some(tag)), ReleaseVerified(n, Some(measurement)), Commit(n), Configure(n)]
  }

  function Additions(n: Name, hosts: seq<Host>, evidence: Host -> Evidence, k: nat): seq<Action>
    requires k <= |hosts|
  {
    if k == 0 then [] else Additions(n, hosts, evidence, k - 1) + [AddNext(n, None, evidence(hosts[k - 1]))]
  }

  predicate Good(matches: Matcher, measurement: Measurement, e: Evidence) {
    e.Verified? && (e.needsHardware ==> e.hardwareOk) && matches(e.measurement, measurement)
  }

  lemma RunAppend(matches: Matcher, s: System, actions: seq<Action>, a: Action)
    requires Enabled(Run(matches, s, actions), a)
    ensures Run(matches, s, actions + [a]) == Step(matches, Run(matches, s, actions), a)
  {
    hide Step, Enabled;
    assert (actions + [a])[..|actions|] == actions;
  }

  /** The model stands at its k-th host, and the hosts before it are pooled under their attested keys. */
  ghost predicate AddedUpTo(s: System, n: Name, cfg: ModelConfig, tag: Tag, measurement: Measurement,
                            evidence: Host -> Evidence, k: nat)
  {
    && n in s.models && n in s.tasks && k <= |cfg.hostnames|
    && s.tasks[n] == (if k < |cfg.hostnames| then Adding(cfg, k) else Idle)
    && s.models[n].tag == tag && s.models[n].source == Some(measurement) && s.models[n].overload == cfg.overload
    && (forall h :: h in s.models[n].enclaves <==> h in cfg.hostnames[..k])
    && (forall h :: h in s.models[n].enclaves ==>
          evidence(h).Verified? && s.models[n].enclaves[h] == Enclave(h, evidence(h).tlsKey))
  }

  /** A new tag and a verified release bring the model's goroutine to its commit, with the pools untouched. */
  lemma ReleaseIsFetched(matches: Matcher, s: System, config: map<Name, ModelConfig>, n: Name, tag: Tag,
                         measurement: Measurement)
    requires SyncOver(s) && n in s.models && n in config && config[n].repo == s.models[n].repo
    requires tag != s.models[n].tag
    ensures var s1 := Step(matches, s, StartSync(config));
            && Enabled(s1, TagFetched(n, Some(tag)))
            && var s2 := Step(matches, s1, TagFetched(n, Some(tag)));
               && Enabled(s2, ReleaseVerified(n, Some(measurement)))
               && var s3 := Step(matches, s2, ReleaseVerified(n, Some(measurement)));
                  n in s3.models && n in s3.tasks && s3.tasks[n] == Committing(config[n], tag, measurement)
  {
  }

  /** Without a newer tag, or when its release does not verify, the sync still takes over the config: the model keeps
      its release and serves the hosts it had that are still listed, and each listed host is then tried again. */
  lemma FailedUpdateStillConfigures(
      matches: Matcher, s: System, config: map<Name, ModelConfig>, n: Name, tag: Option<Tag>)
    requires SyncOver(s) && n in s.models && n in config && config[n].repo == s.models[n].repo
    ensures var s1 := Step(matches, s, StartSync(config));
            && Enabled(s1, TagFetched(n, tag))
            && var s2 := Step(matches, s1, TagFetched(n, tag));
               var newer := tag.Some? && tag.value != s.models[n].tag;
               && (newer ==> Enabled(s2, ReleaseVerified(n, None)))
               && var s3 := if newer then Step(matches, s2, ReleaseVerified(n, None)) else s2;
                  && Enabled(s3, Configure(n))
                  && var s4 := Step(matches, s3, Configure(n));
                     && n in s4.models && n in s4.tasks
                     && s4.models[n].tag == s.models[n].tag && s4.models[n].source == s.models[n].source
                     && s4.models[n].overload == config[n].overload
                     && (forall h, key ::
                           Pooled(s4, n, h, key) <==> Pooled(s, n, h, key) && h in config[n].hostnames)
                     && (config[n].hostnames != [] ==> NextHost(s4, n, config[n].hostnames[0]))
                     && (config[n].hostnames == [] ==> s4.tasks[n].Idle?)
  {
  }

  lemma ReleaseIsCommitted(matches: Matcher, s: System, n: Name, cfg: ModelConfig, tag: Tag, measurement: Measurement,
                           evidence: Host -> Evidence)
    requires n in s.models && n in s.tasks && s.tasks[n] == Committing(cfg, tag, measurement)
    ensures var s1 := Step(matches, s, Commit(n));
            && Enabled(s1, Configure(n))
            && AddedUpTo(Step(matches, s1, Configure(n)), n, cfg, tag, measurement, evidence, 0)
  {
  }

  lemma OpeningRuns(matches: Matcher, s: System, config: map<Name, ModelConfig>, n: Name, tag: Tag,
                    measurement: Measurement, evidence: Host -> Evidence)
    requires SyncOver(s) && n in s.models && n in config && config[n].repo == s.models[n].repo
    requires tag != s.models[n].tag
    ensures AddedUpTo(Run(matches, s, Opening(config, n, tag, measurement)),
                      n, config[n], tag, measurement, evidence, 0)
  {
    hide Run, Step, AddedUpTo;
    var actions := Opening(config, n, tag, measurement);
    NothingRun(matches, s);
    ReleaseIsFetched(matches, s, config, n, tag, measurement);
    assert actions[..1] == [] + [actions[0]];
    RunAppend(matches, s, [], actions[0]);
    assert actions[..2] == actions[..1] + [actions[1]];
    RunAppend(matches, s, actions[..1], actions[1]);
    assert actions[..3] == actions[..2] + [actions[2]];
    RunAppend(matches, s, actions[..2], actions[2]);
    ReleaseIsCommitted(matches, Run(matches, s, actions[..3]), n, config[n], tag, measurement, evidence);
    assert actions[..4] == actions[..3] + [actions[3]];
    RunAppend(matches, s, actions[..3], actions[3]);
    assert actions == actions[..4] + [actions[4]];
    RunAppend(matches, s, actions[..4], actions[4]);
  }

  lemma NothingRun(matches: Matcher, s: System)
    ensures Run(matches, s, []) == s
  {
  }

  lemma AdditionKeepsGoing(matches: Matcher, s: System, n: Name, cfg: ModelConfig, tag: Tag, measurement: Measurement,
                           evidence: Host -> Evidence, k: nat)
    requires k < |cfg.hostnames| && AddedUpTo(s, n, cfg, tag, measurement, evidence, k)
    requires Good(matches, measurement, evidence(cfg.hostnames[k]))
    ensures Enabled(s, AddNext(n, None, evidence(cfg.hostnames[k])))
    ensures AddedUpTo(Step(matches, s, AddNext(n, None, evidence(cfg.hostnames[k]))), n, cfg, tag, measurement,
                      evidence, k + 1)
  {
    var host := cfg.hostnames[k];
    assert cfg.hostnames[..k + 1] == cfg.hostnames[..k] + [host];
    assert !Unchanged(s.models[n], host, None) && Admits(matches, s.models[n], evidence(host));
  }

  lemma {:induction false} AdditionsRun(
      matches: Matcher, s: System, config: map<Name, ModelConfig>, n: Name, tag: Tag, measurement: Measurement,
      evidence: Host -> Evidence, k: nat)
    requires SyncOver(s) && n in s.models && n in config && config[n].repo == s.models[n].repo
    requires tag != s.models[n].tag && k <= |config[n].hostnames|
    requires forall i :: 0 <= i < k ==> Good(matches, measurement, evidence(config[n].hostnames[i]))
    ensures AddedUpTo(Run(matches, s, Opening(config, n, tag, measurement)
                                      + Additions(n, config[n].hostnames, evidence, k)),
                      n, config[n], tag, measurement, evidence, k)
  {
    hide Run, Step, Enabled, AddedUpTo, Good, SyncOver;
    var opening, hosts := Opening(config, n, tag, measurement), config[n].hostnames;
    if k == 0 {
      OpeningRuns(matches, s, config, n, tag, measurement, evidence);
      assert opening + [] == opening;
    } else {
      AdditionsRun(matches, s, config, n, tag, measurement, evidence, k - 1);
      var before, a := opening + Additions(n, hosts, evidence, k - 1), AddNext(n, None, evidence(hosts[k - 1]));
      AdditionKeepsGoing(matches, Run(matches, s, before), n, config[n], tag, measurement, evidence, k - 1);
      RunAppend(matches, s, before, a);
      assert before + [a] == opening + Additions(n, hosts, evidence, k);
    }
  }

  /** A sync that finds a new release, verifies it and gets a good attestation from every listed host ends with
      exactly those hosts in the pool, each under the key it attested, and the model's goroutine is done. */
  lemma SuccessfulSyncFillsPool(matches: Matcher, s: System, config: map<Name, ModelConfig>, n: Name, tag: Tag,
                                measurement: Measurement, evidence: Host -> Evidence)
    requires SyncOver(s) && n in s.models && n in config && config[n].repo == s.models[n].repo
    requires tag != s.models[n].tag
    requires forall i :: 0 <= i < |config[n].hostnames| ==>
               Good(matches, measurement, evidence(config[n].hostnames[i]))
    ensures var hosts := config[n].hostnames;
            var after := Run(matches, s, Opening(config, n, tag, measurement) + Additions(n, hosts, evidence, |hosts|));
            && n in after.models && n in after.tasks && after.tasks[n].Idle?
            && after.models[n].tag == tag && after.models[n].source == Some(measurement)
            && (forall h :: h in after.models[n].enclaves <==> h in hosts)
            && (forall h :: h in hosts ==> evidence(h).Verified? && Pooled(after, n, h, evidence(h).tlsKey))
  {
    hide Run, Opening, Additions, Step, SyncOver;
    var hosts := config[n].hostnames;
    AdditionsRun(matches, s, config, n, tag, measurement, evidence, |hosts|);
    assert hosts[..|hosts|] == hosts;
  }
}
