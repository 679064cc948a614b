/** The poller that watches the queue of one enclave (manager/metrics.go): at most one at a time, and the
    overload flag it drives. */
module Poller {
  import opened Text

  /** A parsed floating point gauge; infinities order like numbers and are not told apart from them here. */
  datatype Gauge = NotANumber | Number(value: real)

  datatype Config = Config(maxRequestsWaiting: int, retryAfterMinutes: int)

  /** `collected` in nanoseconds; no sample is the zero time. */
  datatype Sample = Sample(waiting: Gauge, collected: int)

  const SECOND: int := 1_000_000_000
  const MINUTE: int := 60 * SECOND
  const STALENESS_LIMIT: int := 3 * 15 * SECOND

  predicate AtLeast(w: Gauge, max: int) {
    w.Number? && w.value >= max as real
  }

  predicate Below(w: Gauge, max: int) {
    w.Number? && w.value < max as real
  }

  datatype Counters = Counters(overloads: nat, recoveries: nat, cleared: nat)

  datatype Status = Status(cfg: Option<Config>, overloaded: bool, latest: Option<Sample>, counters: Counters)

  predicate Thresholds(st: Status) {
    st.cfg.Some? && st.cfg.value.maxRequestsWaiting > 0
  }

  function Evaluated(st: Status, w: Gauge): Status {
    if !Thresholds(st) then st
    else
      var over := AtLeast(w, st.cfg.value.maxRequestsWaiting);
      var c := st.counters;
      st.(overloaded := over,
          counters := c.(overloads := if over && !st.overloaded then c.overloads + 1 else c.overloads,
                         recoveries := if !over && st.overloaded then c.recoveries + 1 else c.recoveries))
  }

  /** Takes over a config; without one the flag and the sample are reset. */
  function Configured(st: Status, cfg: Option<Config>): Status {
    if cfg.Some? then st.(cfg := cfg)
    else
      st.(cfg := None, overloaded := false, latest := None,
          counters := st.counters.(cleared := if st.overloaded then st.counters.cleared + 1 else st.counters.cleared))
  }

  predicate Rejects(st: Status, now: int) {
    && Thresholds(st) && st.latest.Some? && now - st.latest.value.collected <= STALENESS_LIMIT
    && !Below(st.latest.value.waiting, st.cfg.value.maxRequestsWaiting)
  }

  class EnclaveMetrics {
    var cfg: Option<Config>
    var overloaded: bool
    var latest: Option<Sample>
    ghost var counters: Counters

    constructor ()
      ensures View() == Status(None, false, None, Counters(0, 0, 0))
    {
      cfg, overloaded, latest, counters := None, false, None, Counters(0, 0, 0);
    }

    ghost function View(): Status
      reads this
    {
      Status(cfg, overloaded, latest, counters)
    }

    method UpdateLatest(waiting: Gauge, now: int)
      modifies this`latest
      ensures View() == old(View()).(latest := Some(Sample(waiting, now)))
    {
      latest := Some(Sample(waiting, now));
    }

    method EvaluateThresholds(waiting: Gauge)
      modifies this`overloaded, this`counters
      ensures View() == Evaluated(old(View()), waiting)
      ensures cfg == old(cfg) && latest == old(latest)
      ensures overloaded ==
                if cfg.Some? && cfg.value.maxRequestsWaiting > 0
                then waiting.Number? && waiting.value >= cfg.value.maxRequestsWaiting as real
                else old(overloaded)
    {
      if cfg.None? || cfg.value.maxRequestsWaiting <= 0 {
        return;
      }
      if waiting.Number? && waiting.value >= cfg.value.maxRequestsWaiting as real {
        if !overloaded {
          counters := counters.(overloads := counters.overloads + 1);
        }
        overloaded := true;
      } else {
        if overloaded {
          counters := counters.(recoveries := counters.recoveries + 1);
        }
        overloaded := false;
      }
    }

    /** A scrape that found the gauge. */
    method Scrape(waiting: Gauge, now: int)
      modifies this
      ensures View() == Evaluated(old(View()).(latest := Some(Sample(waiting, now))), waiting)
      ensures cfg == old(cfg) && latest == Some(Sample(waiting, now))
    {
      UpdateLatest(waiting, now);
      EvaluateThresholds(waiting);
    }

    /** The part of setConfig after the old poller is gone; the caller starts a new one if there is a config. */
    method ApplyConfig(newCfg: Option<Config>) returns (start: bool)
      modifies this
      ensures View() == Configured(old(View()), newCfg) && (start <==> newCfg.Some?)
      ensures cfg == newCfg
      ensures overloaded == (newCfg.Some? && old(overloaded))
      ensures latest == if newCfg.Some? then old(latest) else None
    {
      cfg := newCfg;
      if newCfg.None? {
        if overloaded {
          counters := counters.(cleared := counters.cleared + 1);
        }
        overloaded := false;
        latest := None;
        return false;
      }
      return true;
    }

    /** Rejects under a positive limit while the last sample is at most 45 seconds old and not below it. */
    method ShouldReject(now: int) returns (reject: bool, retryAfter: int)
      ensures reject <==> Rejects(View(), now)
      ensures reject <==>
                && cfg.Some? && cfg.value.maxRequestsWaiting > 0
                && latest.Some? && now <= latest.value.collected + 45_000_000_000
                && (latest.value.waiting.Number? ==>
                      latest.value.waiting.value >= cfg.value.maxRequestsWaiting as real)
      ensures reject ==>
                retryAfter == 60_000_000_000 * (if cfg.value.retryAfterMinutes > 0 then cfg.value.retryAfterMinutes
                                                else 1)
      ensures !reject ==> retryAfter == 0
    {
      if cfg.None? || cfg.value.maxRequestsWaiting <= 0 {
        return false, 0;
      }
      if latest.None? {
        return false, 0;
      }
      if now - latest.value.collected > STALENESS_LIMIT {
        return false, 0;
      }
      if latest.value.waiting.Number? && latest.value.waiting.value < cfg.value.maxRequestsWaiting as real {
        return false, 0;
      }
      var minutes := cfg.value.retryAfterMinutes;
      if minutes <= 0 {
        minutes := 1;
      }
      return true, minutes * MINUTE;
    }
  }

  /** Right after a scrape under a threshold, the flag says whether requests are rejected, unless the gauge is
      not a number: then the flag is down while requests are rejected. */
  lemma FlagAgreesExactly(st: Status, w: Gauge, now: int)
    requires Thresholds(st)
    ensures var after := Evaluated(st.(latest := Some(Sample(w, now))), w);
            (after.overloaded <==> Rejects(after, now)) <==> w.Number?
  {
    var after := Evaluated(st.(latest := Some(Sample(w, now))), w);
    assert after.latest == Some(Sample(w, now)) && after.cfg == st.cfg;
  }

  // ---- Pollers, setConfig and shutdown as steps ----

  datatype Phase =
    | Fetching                      // a scrape is under way
    | Evaluating(waiting: Gauge)    // its sample is stored, the thresholds not yet evaluated
    | Sleeping                      // waiting for the ticker or the cancellation

  datatype Goroutine = Goroutine(cancelled: bool, phase: Phase)

  /** The one setConfig or shutdown call under way, waiting for the pollers to end. */
  datatype Control = Ready | Reconfiguring(cfg: Option<Config>) | ShuttingDown

  datatype System = System(
    status: Status, cancel: Option<nat>, control: Control, pollers: map<nat, Goroutine>, spawned: nat)

  datatype Action =
    | SetConfig(cfg: Option<Config>)
    | Shutdown
    | Return                                  // the waiting call goes on, once all pollers have ended
    | Tick(id: nat)
    | Scraped(id: nat, waiting: Option<Gauge>, now: int)
    | Evaluate(id: nat)
    | Exit(id: nat)

  const START := System(Status(None, false, None, Counters(0, 0, 0)), None, Ready, map[], 0)

  /** The end of setConfig: at this point no poller is running. */
  function Finish(s: System, cfg: Option<Config>): System {
    var s1 := s.(status := Configured(s.status, cfg), control := Ready);
    if cfg.None? then s1.(cancel := None)
    else
      s1.(cancel := Some(s.spawned), spawned := s.spawned + 1,
          pollers := s.pollers[s.spawned := Goroutine(false, Fetching)])
  }

  function Cancelled(s: System): System {
    if s.cancel.Some? && s.cancel.value in s.pollers then
      s.(pollers := s.pollers[s.cancel.value := s.pollers[s.cancel.value].(cancelled := true)])
    else s
  }

  predicate Enabled(s: System, a: Action) {
    match a
    case SetConfig(_) => s.control.Ready?
    case Shutdown => s.control.Ready?
    case Return => !s.control.Ready? && s.pollers == map[]
    case Tick(id) => id in s.pollers && s.pollers[id].phase.Sleeping?
    case Scraped(id, _, _) => id in s.pollers && s.pollers[id].phase.Fetching?
    case Evaluate(id) => id in s.pollers && s.pollers[id].phase.Evaluating?
    case Exit(id) => id in s.pollers && s.pollers[id].phase.Sleeping? && s.pollers[id].cancelled
  }

  function Goto(s: System, id: nat, phase: Phase): System
    requires id in s.pollers
  {
    s.(pollers := s.pollers[id := s.pollers[id].(phase := phase)])
  }

  function Step(s: System, a: Action): System
    requires Enabled(s, a)
  {
    match a
    case SetConfig(cfg) =>
      if s.cancel.Some? then Cancelled(s).(control := Reconfiguring(cfg)) else Finish(s, cfg)
    case Shutdown =>
      if s.cancel.Some? then Cancelled(s).(control := ShuttingDown, cancel := None) else s
    case Return =>
      if s.control.Reconfiguring? then Finish(s.(cancel := None), s.control.cfg) else s.(control := Ready)
    case Tick(id) => Goto(s, id, Fetching)
    case Scraped(id, waiting, now) =>
      if waiting.None? then Goto(s, id, Sleeping)
      else Goto(s, id, Evaluating(waiting.value)).(status := s.status.(latest := Some(Sample(waiting.value, now))))
    case Evaluate(id) => Goto(s, id, Sleeping).(status := Evaluated(s.status, s.pollers[id].phase.waiting))
    case Exit(id) => s.(pollers := s.pollers - {id})
  }

  /** The state after a run; actions that are not enabled do nothing. */
  function Run(actions: seq<Action>): System {
    if actions == [] then START
    else
      var before := Run(actions[..|actions| - 1]);
      if Enabled(before, actions[|actions| - 1]) then Step(before, actions[|actions| - 1]) else before
  }

  function Live(s: System): set<nat> {
    set id | id in s.pollers && !s.pollers[id].cancelled
  }

  /** Between calls, the pollers are exactly the one that `cancel` stops; during a call that waits, all are
      cancelled. A poller only runs under the config it was started with. */
  predicate AtMostOne(s: System) {
    && (s.control.Ready? ==>
          s.pollers.Keys == (if s.cancel.Some? then {s.cancel.value} else {}) && Live(s) == s.pollers.Keys)
    && (!s.control.Ready? ==> Live(s) == {})
    && (s.control.ShuttingDown? ==> s.cancel.None?)
    && (forall id, other :: id in s.pollers && other in s.pollers ==> id == other)
    && (forall id :: id in s.pollers ==> id < s.spawned)
    && (s.cancel.Some? ==> s.status.cfg.Some?)
    && (s.pollers != map[] ==> s.status.cfg.Some?)
  }

  /** Every rise of the flag was counted, and every fall is a recovery or a reset. */
  predicate Balanced(st: Status) {
    st.counters.overloads == st.counters.recoveries + st.counters.cleared + if st.overloaded then 1 else 0
  }

  /** Without a config there is no sample and no flag. */
  predicate Cleared(st: Status) {
    st.cfg.None? ==> st.latest.None? && !st.overloaded
  }

  predicate Safe(s: System) {
    AtMostOne(s) && Balanced(s.status) && Cleared(s.status)
  }

  lemma LiveExactly(s: System)
    ensures forall id :: id in Live(s) <==> id in s.pollers && !s.pollers[id].cancelled
  {
  }

  lemma SameSet(a: set<nat>, b: set<nat>)
    requires forall id :: id in a <==> id in b
    ensures a == b
  {
  }

  predicate ByPoller(a: Action) {
    a.Tick? || a.Scraped? || a.Evaluate? || a.Exit?
  }

  lemma PollerStepKeepsPollers(s: System, a: Action)
    requires AtMostOne(s) && Enabled(s, a) && ByPoller(a)
    ensures AtMostOne(Step(s, a))
  {
    hide Live, AtLeast;
    var s' := Step(s, a);
    LiveExactly(s);
    LiveExactly(s');
    if a.Exit? {
      assert a.id !in Live(s);
      SameSet(Live(s'), Live(s));
    } else {
      SameSet(Live(s'), Live(s));
      assert s'.pollers.Keys == s.pollers.Keys;
    }
  }

  lemma CallStepKeepsPollers(s: System, a: Action)
    requires AtMostOne(s) && Enabled(s, a) && !ByPoller(a)
    ensures AtMostOne(Step(s, a))
  {
    hide Live, Balanced, Cleared;
    var s' := Step(s, a);
    LiveExactly(s);
    LiveExactly(s');
    if s'.control.Ready? {
      SameSet(s'.pollers.Keys, if s'.cancel.Some? then {s'.cancel.value} else {});
      SameSet(Live(s'), s'.pollers.Keys);
    } else {
      SameSet(Live(s'), {});
    }
  }

  lemma StepKeepsStatus(s: System, a: Action)
    requires Safe(s) && Enabled(s, a)
    ensures Balanced(Step(s, a).status) && Cleared(Step(s, a).status)
  {
    hide AtLeast;
  }

  /** In every run of setConfig and shutdown calls, one after the other, interleaved with the pollers' steps. */
  lemma {:induction false} RunStaysSafe(actions: seq<Action>)
    ensures Safe(Run(actions))
  {
    hide Step, Enabled, AtMostOne, Balanced, Cleared;
    if actions == [] {
      StartIsSafe();
    } else {
      var before, a := Run(actions[..|actions| - 1]), actions[|actions| - 1];
      RunStaysSafe(actions[..|actions| - 1]);
      if Enabled(before, a) {
        if ByPoller(a) {
          PollerStepKeepsPollers(before, a);
        } else {
          CallStepKeepsPollers(before, a);
        }
        StepKeepsStatus(before, a);
      }
    }
  }

  lemma StartIsSafe()
    ensures Safe(START)
  {
  }

  /** At most one poller is running and not cancelled; between calls there is one exactly if `cancel` is set. */
  lemma OnePoller(actions: seq<Action>)
    ensures |Live(Run(actions))| <= 1
    ensures Run(actions).control.Ready? ==> (Run(actions).cancel.Some? <==> |Live(Run(actions))| == 1)
  {
    RunStaysSafe(actions);
    var s := Run(actions);
    hide Run;
    if Live(s) != {} {
      var id :| id in Live(s);
      assert Live(s) == {id};
    }
  }

  /** Some action after the prefix hands over a config. */
  predicate Reconfigures(actions: seq<Action>, from: nat) {
    from < |actions|
    && ((actions[|actions| - 1].SetConfig? && actions[|actions| - 1].cfg.Some?)
        || Reconfigures(actions[..|actions| - 1], from))
  }

  predicate Quiet(s: System) {
    && s.control.Ready? && s.pollers == map[] && s.cancel.None?
    && s.status.cfg.None? && s.status.latest.None? && !s.status.overloaded
  }

  lemma QuietStep(s: System, a: Action)
    requires Quiet(s) && Enabled(s, a) && !(a.SetConfig? && a.cfg.Some?)
    ensures Quiet(Step(s, a))
    ensures Step(s, a).status == s.status
  {
    hide Evaluated;
  }

  /** Once a setConfig without a config has returned, no sample lands, the flag stays down and no request is
      rejected, until a config is set again. */
  lemma {:induction false} SilentWhileUnconfigured(actions: seq<Action>, n: nat, now: int)
    requires n <= |actions| && Run(actions[..n]).control.Ready? && Run(actions[..n]).status.cfg.None?
    requires !Reconfigures(actions, n)
    ensures Quiet(Run(actions)) && Run(actions).status == Run(actions[..n]).status
    ensures !Rejects(Run(actions).status, now)
  {
    hide Step, Enabled, Balanced;
    if n == |actions| {
      assert actions[..n] == actions;
      RunStaysSafe(actions);
      assert Run(actions).pollers == map[];
    } else {
      var front, a := actions[..|actions| - 1], actions[|actions| - 1];
      assert front[..n] == actions[..n];
      SilentWhileUnconfigured(front, n, now);
      if Enabled(Run(front), a) {
        QuietStep(Run(front), a);
      }
    }
  }

  /** Overload events less recoveries less flags reset is the flag. */
  lemma EventsBalance(actions: seq<Action>)
    ensures var st := Run(actions).status;
            st.counters.overloads - st.counters.recoveries - st.counters.cleared == if st.overloaded then 1 else 0
  {
    RunStaysSafe(actions);
  }

  predicate CanMove(s: System, id: nat) {
    Enabled(s, Exit(id)) || Enabled(s, Evaluate(id)) || Enabled(s, Scraped(id, None, 0))
  }

  /** A call that waits can always go on: some poller step is enabled, or all have ended. */
  lemma WaitingEnds(actions: seq<Action>)
    requires !Run(actions).control.Ready?
    ensures var s := Run(actions);
            Enabled(s, Return) || exists id :: id in s.pollers && CanMove(s, id)
  {
    RunStaysSafe(actions);
    var s := Run(actions);
    hide Run;
    if s.pollers != map[] {
      var id :| id in s.pollers;
      assert id !in Live(s);
      assert CanMove(s, id);
    }
  }

  // ---- A config takes effect ----

  lemma RunSnoc(actions: seq<Action>, a: Action)
    requires Enabled(Run(actions), a)
    ensures Run(actions + [a]) == Step(Run(actions), a)
  {
    hide Step, Enabled;
    assert (actions + [a])[..|actions|] == actions;
  }

  /** The steps by which a cancelled poller ends. */
  function Ending(id: nat, phase: Phase): seq<Action> {
    match phase
    case Fetching => [Scraped(id, None, 0), Exit(id)]
    case Evaluating(_) => [Evaluate(id), Exit(id)]
    case Sleeping => [Exit(id)]
  }

  lemma PollerEnds(actions: seq<Action>, id: nat, cfg: Option<Config>)
    requires var s := Run(actions);
             s.control == Reconfiguring(cfg) && s.pollers.Keys == {id} && s.pollers[id].cancelled
    ensures var after := Run(actions + Ending(id, Run(actions).pollers[id].phase));
            after.control == Reconfiguring(cfg) && after.pollers == map[] && after.spawned == Run(actions).spawned
  {
    hide Run, Evaluated;
    var s := Run(actions);
    var ending := Ending(id, s.pollers[id].phase);
    if s.pollers[id].phase.Sleeping? {
      RunSnoc(actions, Exit(id));
    } else {
      RunSnoc(actions, ending[0]);
      assert actions + ending == actions + [ending[0]] + [Exit(id)];
      RunSnoc(actions + [ending[0]], Exit(id));
    }
  }

  /** The config in force is the one handed over, with one live poller if there is one and none otherwise. */
  predicate InForce(s: System, cfg: Option<Config>) {
    && s.control.Ready? && s.status.cfg == cfg
    && |Live(s)| == (if cfg.Some? then 1 else 0)
    && (cfg.None? ==> !s.status.overloaded && s.status.latest.None?)
  }

  lemma FinishedInForce(s: System, cfg: Option<Config>)
    requires s.pollers == map[]
    ensures InForce(Finish(s, cfg), cfg)
    ensures forall id :: id in Finish(s, cfg).pollers ==> id == s.spawned
  {
    var s' := Finish(s, cfg);
    LiveExactly(s');
    SameSet(Live(s'), if cfg.Some? then {s.spawned} else {});
  }

  /** Out of every reachable state between calls, a setConfig can run to its end, and then its config is in force;
      the poller of the config before it has ended. */
  lemma ConfigTakesEffect(actions: seq<Action>, cfg: Option<Config>) returns (more: seq<Action>)
    requires Run(actions).control.Ready?
    ensures InForce(Run(actions + [SetConfig(cfg)] + more), cfg)
    ensures forall id :: id in Run(actions).pollers ==> id !in Run(actions + [SetConfig(cfg)] + more).pollers
  {
    hide Run, Finish, InForce, Configured, Balanced, Cleared;
    RunStaysSafe(actions);
    RunSnoc(actions, SetConfig(cfg));
    var s, called := Run(actions), actions + [SetConfig(cfg)];
    if s.cancel.None? {
      more := [];
      assert called + [] == called;
      FinishedInForce(s, cfg);
    } else {
      var id := s.cancel.value;
      PollerEnds(called, id, cfg);
      var ending := Ending(id, Run(called).pollers[id].phase);
      RunSnoc(called + ending, Return);
      FinishedInForce(Run(called + ending).(cancel := None), cfg);
      more := ending + [Return];
      assert called + more == called + ending + [Return];
    }
  }
}
