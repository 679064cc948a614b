/** The managed sandbox of one request (builtins/codeinterpreter/sandbox_manager.go): created on first use by
    whichever calls get there, installed once, deleted at the end. */
module Sandboxes {
  import opened Text

  /** `serial` tells the sandboxes of a run apart; ids are whatever the control plane returns. */
  datatype Sandbox = Sandbox(serial: nat, id: string)

  type Gateway = string
  type Caller = nat

  datatype Slot = Slot(sandbox: Option<Sandbox>, gateway: Option<Gateway>)

  const EMPTY := Slot(None, None)

  /** Only a gateway decides whether the slot is taken. */
  function Installed(slot: Slot, sandbox: Sandbox, gateway: Gateway): Slot {
    if slot.gateway.None? then Slot(Some(sandbox), Some(gateway)) else slot
  }

  predicate Blank(sandbox: Sandbox) {
    Trim(sandbox.id) == ""
  }

  /** What a close asks the control plane to delete. */
  function Deletable(slot: Slot): Option<Sandbox> {
    if slot.sandbox.Some? && !Blank(slot.sandbox.value) then slot.sandbox else None
  }

  /** The critical sections of the manager. */
  class SandboxManager {
    var sandbox: Option<Sandbox>
    var gateway: Option<Gateway>

    constructor ()
      ensures View() == EMPTY
    {
      sandbox, gateway := None, None;
    }

    function View(): Slot
      reads this
    {
      Slot(sandbox, gateway)
    }

    method Ready() returns (ready: bool)
      ensures ready <==> View().sandbox.Some? && View().gateway.Some?
    {
      return gateway.Some? && sandbox.Some?;
    }

    method Install(newSandbox: Sandbox, newGateway: Gateway)
      modifies this
      ensures View() == Installed(old(View()), newSandbox, newGateway)
      ensures if old(gateway).None? then sandbox == Some(newSandbox) && gateway == Some(newGateway)
              else sandbox == old(sandbox) && gateway == old(gateway)
    {
      if gateway.None? {
        sandbox := Some(newSandbox);
        gateway := Some(newGateway);
      }
    }

    /** One call that nothing interleaves with, given what the control plane and the bootstrapper answer; a
        sandbox whose bootstrap failed is to be deleted. */
    method Ensure(configured: bool, created: Option<Sandbox>, bootstrapped: Option<Gateway>)
      returns (ok: bool, doomed: Option<Sandbox>)
      modifies this
      ensures var ready := old(View()).sandbox.Some? && old(View()).gateway.Some?;
              && (ok <==> ready || (configured && created.Some? && bootstrapped.Some?))
              && View() == (if ready || !ok then old(View())
                            else Installed(old(View()), created.value, bootstrapped.value))
              && doomed == (if !ready && configured && bootstrapped.None? then created else None)
    {
      var ready := Ready();
      if ready {
        return true, None;
      }
      if !configured || created.None? {
        return false, None;
      }
      if bootstrapped.None? {
        return false, created;
      }
      Install(created.value, bootstrapped.value);
      return true, None;
    }

    /** What Close asks the control plane to delete. */
    method CloseTarget() returns (target: Option<Sandbox>)
      ensures target == Deletable(View())
      ensures target == if sandbox.Some? && Trim(sandbox.value.id) != "" then sandbox else None
    {
      hide Trim;
      if sandbox.None? || Trim(sandbox.value.id) == "" {
        return None;
      }
      return sandbox;
    }
  }

  // ---- Interleaved calls ----

  /** Where a call of Execute stands. */
  datatype Task =
    | Creating
    | Bootstrapping(sandbox: Sandbox)
    | Deleting(sandbox: Sandbox)                       // its bootstrap failed
    | Installing(sandbox: Sandbox, gateway: Gateway)
    | Executing

  /** `tasks` holds the calls under way. The other sets record serials: sandboxes whose deletion after a failed
      bootstrap was attempted, those for which it failed, losers of an installation race, sandboxes with a
      blank id, sandboxes actually deleted. `uses` records what each execution ran on. */
  datatype System = System(
    slot: Slot, tasks: map<Caller, Task>, created: nat, bootstrapped: set<(Sandbox, Gateway)>,
    cleaned: set<nat>, kept: set<nat>, lost: set<nat>, blank: set<nat>, deleted: set<nat>,
    uses: set<(Sandbox, Gateway)>)

  datatype Action =
    | Enter(c: Caller, configured: bool)
    | Create(c: Caller, id: Option<string>)
    | Bootstrap(c: Caller, gateway: Option<Gateway>)
    | Delete(c: Caller, ok: bool)
    | Install(c: Caller)
    | Execute(c: Caller)
    | Close(ok: bool)

  const START := System(EMPTY, map[], 0, {}, {}, {}, {}, {}, {}, {})

  function Goto(s: System, c: Caller, t: Task): System {
    s.(tasks := s.tasks[c := t])
  }

  function Return(s: System, c: Caller): System {
    s.(tasks := s.tasks - {c})
  }

  predicate Enabled(s: System, a: Action) {
    match a
    case Enter(c, _) => c !in s.tasks
    case Create(c, _) => c in s.tasks && s.tasks[c].Creating?
    case Bootstrap(c, _) => c in s.tasks && s.tasks[c].Bootstrapping?
    case Delete(c, _) => c in s.tasks && s.tasks[c].Deleting?
    case Install(c) => c in s.tasks && s.tasks[c].Installing?
    case Execute(c) => c in s.tasks && s.tasks[c].Executing?
    case Close(_) => true
  }

  function Step(s: System, a: Action): System
    requires Enabled(s, a)
  {
    match a
    case Enter(c, configured) =>
      if s.slot.gateway.Some? && s.slot.sandbox.Some? then Goto(s, c, Executing)
      else if configured then Goto(s, c, Creating)
      else s
    case Create(c, id) =>
      if id.None? then Return(s, c)
      else
        var sandbox := Sandbox(s.created, Trim(id.value));
        Goto(s, c, Bootstrapping(sandbox)).(
          created := s.created + 1, blank := if Blank(sandbox) then s.blank + {sandbox.serial} else s.blank)
    case Bootstrap(c, gateway) =>
      var sandbox := s.tasks[c].sandbox;
      if gateway.None? then Goto(s, c, Deleting(sandbox))
      else Goto(s, c, Installing(sandbox, gateway.value)).(bootstrapped := s.bootstrapped + {(sandbox, gateway.value)})
    case Delete(c, ok) =>
      var sandbox := s.tasks[c].sandbox;
      Return(s, c).(
        cleaned := s.cleaned + {sandbox.serial},
        kept := if ok then s.kept else s.kept + {sandbox.serial},
        deleted := if ok && !Blank(sandbox) then s.deleted + {sandbox.serial} else s.deleted)
    case Install(c) =>
      var t := s.tasks[c];
      Goto(s, c, Executing).(
        slot := Installed(s.slot, t.sandbox, t.gateway),
        lost := if s.slot.gateway.None? then s.lost else s.lost + {t.sandbox.serial})
    case Execute(c) =>
      if s.slot.sandbox.Some? && s.slot.gateway.Some? then
        Return(s, c).(uses := s.uses + {(s.slot.sandbox.value, s.slot.gateway.value)})
      else Return(s, c)
    case Close(ok) =>
      if Deletable(s.slot).Some? && ok then s.(deleted := s.deleted + {Deletable(s.slot).value.serial}) else s
  }

  /** The state after a run; actions that are not enabled do nothing. */
  function Run(actions: seq<Action>): System {
    if actions == [] then START
    else
      var before := Run(actions[..|actions| - 1]);
      var a := actions[|actions| - 1];
      if Enabled(before, a) then Step(before, a) else before
  }

  // ---- What calls under way hold ----

  predicate Holding(t: Task) {
    t.Bootstrapping? || t.Deleting? || t.Installing?
  }

  /** The sandboxes that some call under way has created and not yet disposed of. */
  function Held(tasks: map<Caller, Task>): set<nat> {
    set c | c in tasks && Holding(tasks[c]) :: tasks[c].sandbox.serial
  }

  predicate Injective(tasks: map<Caller, Task>) {
    forall c, d ::
      (c in tasks && d in tasks && Holding(tasks[c]) && Holding(tasks[d])
       && tasks[c].sandbox.serial == tasks[d].sandbox.serial) ==> c == d
  }

  lemma HeldSame(tasks: map<Caller, Task>, c: Caller, t: Task)
    requires Injective(tasks) && c in tasks && Holding(tasks[c]) && Holding(t) && t.sandbox == tasks[c].sandbox
    ensures Held(tasks[c := t]) == Held(tasks) && Injective(tasks[c := t])
  {
    var after := tasks[c := t];
    forall n | n in Held(tasks) ensures n in Held(after) {
      var d :| d in tasks && Holding(tasks[d]) && tasks[d].sandbox.serial == n;
      assert d in after && Holding(after[d]) && after[d].sandbox.serial == n;
    }
    forall n | n in Held(after) ensures n in Held(tasks) {
      var d :| d in after && Holding(after[d]) && after[d].sandbox.serial == n;
      assert d in tasks && Holding(tasks[d]) && tasks[d].sandbox.serial == n;
    }
  }

  lemma HeldMore(tasks: map<Caller, Task>, c: Caller, sandbox: Sandbox)
    requires Injective(tasks) && (c in tasks ==> !Holding(tasks[c])) && sandbox.serial !in Held(tasks)
    ensures Held(tasks[c := Bootstrapping(sandbox)]) == Held(tasks) + {sandbox.serial}
    ensures Injective(tasks[c := Bootstrapping(sandbox)])
  {
    var after := tasks[c := Bootstrapping(sandbox)];
    assert c in after && Holding(after[c]);
    forall n | n in Held(tasks) ensures n in Held(after) {
      var d :| d in tasks && Holding(tasks[d]) && tasks[d].sandbox.serial == n;
      assert d in after && Holding(after[d]) && after[d].sandbox.serial == n;
    }
    forall d | d in tasks && Holding(tasks[d]) ensures tasks[d].sandbox.serial != sandbox.serial {
      assert tasks[d].sandbox.serial in Held(tasks);
    }
  }

  /** A call that returns or executes holds nothing any more. */
  lemma HeldLess(tasks: map<Caller, Task>, after: map<Caller, Task>, c: Caller)
    requires Injective(tasks) && c in tasks
    requires after == tasks - {c} || after == tasks[c := Executing] || after == tasks[c := Creating]
    ensures Held(after) == Held(tasks) - if Holding(tasks[c]) then {tasks[c].sandbox.serial} else {}
    ensures Injective(after)
  {
    forall n | n in Held(tasks) && !(Holding(tasks[c]) && n == tasks[c].sandbox.serial) ensures n in Held(after) {
      var d :| d in tasks && Holding(tasks[d]) && tasks[d].sandbox.serial == n;
      assert d in after && Holding(after[d]) && after[d].sandbox.serial == n;
    }
    forall n | n in Held(after) ensures n in Held(tasks) && !(Holding(tasks[c]) && n == tasks[c].sandbox.serial) {
      var d :| d in after && Holding(after[d]) && after[d].sandbox.serial == n;
      assert d in tasks && Holding(tasks[d]) && tasks[d].sandbox.serial == n;
    }
  }

  lemma HeldByNewcomer(tasks: map<Caller, Task>, c: Caller, t: Task)
    requires Injective(tasks) && c !in tasks && !Holding(t)
    ensures Held(tasks[c := t]) == Held(tasks) && Injective(tasks[c := t])
  {
    var after := tasks[c := t];
    forall n | n in Held(tasks) ensures n in Held(after) {
      var d :| d in tasks && Holding(tasks[d]) && tasks[d].sandbox.serial == n;
      assert d in after && Holding(after[d]) && after[d].sandbox.serial == n;
    }
    forall n | n in Held(after) ensures n in Held(tasks) {
      var d :| d in after && Holding(after[d]) && after[d].sandbox.serial == n;
      assert d in tasks && Holding(tasks[d]) && tasks[d].sandbox.serial == n;
    }
  }

  // ---- Safety ----

  function InSlot(slot: Slot): set<nat> {
    if slot.sandbox.Some? then {slot.sandbox.value.serial} else {}
  }

  /** A sandbox with a blank id is on record as such, and only such are. */
  predicate BlankKnown(s: System, sandbox: Sandbox) {
    sandbox.serial < s.created && (Blank(sandbox) <==> sandbox.serial in s.blank)
  }

  /** Sandbox and gateway are installed together, the gateway is the one bootstrapped for the sandbox, calls
      only execute once both are there, and every execution used them. */
  predicate OneSandbox(s: System) {
    && (s.slot.sandbox.Some? <==> s.slot.gateway.Some?)
    && (s.slot.sandbox.Some? ==> (s.slot.sandbox.value, s.slot.gateway.value) in s.bootstrapped)
    && (forall c :: c in s.tasks && s.tasks[c].Executing? ==> s.slot.sandbox.Some?)
    && (forall c :: c in s.tasks && s.tasks[c].Installing? ==>
          (s.tasks[c].sandbox, s.tasks[c].gateway) in s.bootstrapped)
    && (s.uses != {} ==> s.slot.sandbox.Some? && s.uses == {(s.slot.sandbox.value, s.slot.gateway.value)})
  }

  /** The serials of the first n creations. */
  function Serials(n: nat): set<nat> {
    if n == 0 then {} else Serials(n - 1) + {n - 1}
  }

  lemma {:induction false} SerialsExactly(n: nat)
    ensures |Serials(n)| == n && forall i :: i in Serials(n) <==> 0 <= i < n
  {
    if n > 0 {
      SerialsExactly(n - 1);
    }
  }

  /** Every sandbox created is in exactly one place. */
  predicate Partition(s: System) {
    && InSlot(s.slot) + s.cleaned + s.lost + Held(s.tasks) == Serials(s.created)
    && InSlot(s.slot) !! s.cleaned !! s.lost !! Held(s.tasks)
    && Injective(s.tasks)
  }

  predicate BlanksKnown(s: System) {
    && (s.slot.sandbox.Some? ==> BlankKnown(s, s.slot.sandbox.value))
    && (forall c :: c in s.tasks && Holding(s.tasks[c]) ==> BlankKnown(s, s.tasks[c].sandbox))
    && (forall n :: n in s.blank ==> n < s.created)
  }

  /** Of the sandboxes a deletion was attempted for, those not deleted have a blank id or saw it fail; nothing
      else is deleted but the installed one. */
  predicate Ledger(s: System) {
    && s.kept <= s.cleaned
    && s.deleted <= s.cleaned + InSlot(s.slot)
    && s.deleted !! s.blank + s.kept
    && s.cleaned <= s.deleted + s.blank + s.kept
  }

  predicate Safe(s: System) {
    OneSandbox(s) && Partition(s) && BlanksKnown(s) && Ledger(s)
  }

  /** One step keeps the sandbox that is installed. */
  lemma StepKeepsSlot(s: System, a: Action)
    requires OneSandbox(s) && Enabled(s, a)
    ensures OneSandbox(Step(s, a))
    ensures s.slot.sandbox.Some? ==> Step(s, a).slot == s.slot
  {
    hide Trim, Blank;
  }

  lemma StepKeepsPartition(s: System, a: Action)
    requires OneSandbox(s) && Partition(s) && Enabled(s, a)
    ensures Partition(Step(s, a))
  {
    hide Trim, Blank, Held, Injective, Serials;
    var s' := Step(s, a);
    SerialsMore(s.created);
    match a
    case Enter(c, _) => if s'.tasks != s.tasks { HeldByNewcomer(s.tasks, c, s'.tasks[c]); }
    case Create(c, id) =>
      if id.None? { HeldLess(s.tasks, s'.tasks, c); } else { HeldMore(s.tasks, c, s'.tasks[c].sandbox); }
    case Bootstrap(c, _) => HeldSame(s.tasks, c, s'.tasks[c]);
    case Delete(c, _) => HeldIncludes(s.tasks, c); HeldLess(s.tasks, s'.tasks, c);
    case Install(c) => HeldIncludes(s.tasks, c); HeldLess(s.tasks, s'.tasks, c);
    case Execute(c) => HeldLess(s.tasks, s'.tasks, c);
    case Close(_) =>
  }

  lemma SerialsMore(n: nat)
    ensures Serials(n + 1) == Serials(n) + {n} && n !in Serials(n)
  {
    SerialsExactly(n);
  }

  lemma HeldIncludes(tasks: map<Caller, Task>, c: Caller)
    requires c in tasks && Holding(tasks[c])
    ensures tasks[c].sandbox.serial in Held(tasks)
  {
  }

  lemma StepKeepsBlanks(s: System, a: Action)
    requires BlanksKnown(s) && Enabled(s, a)
    ensures BlanksKnown(Step(s, a))
  {
    hide Trim, Blank;
  }

  lemma StepKeepsLedger(s: System, a: Action)
    requires Safe(s) && Enabled(s, a)
    ensures Ledger(Step(s, a))
  {
    hide Trim, Blank, Injective, Serials;
    SerialsMore(s.created);
    if a.Delete? || a.Install? {
      HeldIncludes(s.tasks, a.c);
    }
    hide Held;
  }

  /** In every run, however calls and closes interleave: one sandbox and gateway, each created sandbox in
      exactly one place, and deletions as recorded. */
  lemma {:induction false} RunStaysSafe(actions: seq<Action>)
    ensures Safe(Run(actions))
  {
    hide Step, Enabled, OneSandbox, Partition, BlanksKnown, Ledger;
    if actions == [] {
      StartIsSafe();
    } else {
      var before, a := Run(actions[..|actions| - 1]), actions[|actions| - 1];
      RunStaysSafe(actions[..|actions| - 1]);
      if Enabled(before, a) {
        StepKeepsSlot(before, a);
        StepKeepsPartition(before, a);
        StepKeepsBlanks(before, a);
        StepKeepsLedger(before, a);
      }
    }
  }

  lemma StartIsSafe()
    ensures Safe(START)
  {
  }

  /** What is installed stays installed, and all executions of a run used it. */
  lemma {:induction false} NeverReplaced(actions: seq<Action>, n: nat)
    requires n <= |actions| && Run(actions[..n]).slot.sandbox.Some?
    ensures Run(actions).slot == Run(actions[..n]).slot && Run(actions).slot.gateway.Some?
    ensures Run(actions).uses <= {(Run(actions).slot.sandbox.value, Run(actions).slot.gateway.value)}
  {
    hide Step, Enabled;
    RunStaysSafe(actions);
    if n == |actions| {
      assert actions[..n] == actions;
    } else {
      assert actions[..|actions| - 1][..n] == actions[..n];
      NeverReplaced(actions[..|actions| - 1], n);
      var before := Run(actions[..|actions| - 1]);
      RunStaysSafe(actions[..|actions| - 1]);
      if Enabled(before, actions[|actions| - 1]) {
        StepKeepsSlot(before, actions[|actions| - 1]);
      }
    }
  }

  /** Conservation: creations are the installed one, those cleaned up after a failed bootstrap, those still in
      flight and the losers of installation races. */
  lemma CreationsAccountedFor(actions: seq<Action>)
    ensures var s := Run(actions);
            s.created == (if s.slot.sandbox.Some? then 1 else 0) + |s.cleaned| + |Held(s.tasks)| + |s.lost|
  {
    RunStaysSafe(actions);
    var s := Run(actions);
    SerialsExactly(s.created);
    hide Run, Held, Serials;
    var a, b, c, d := InSlot(s.slot), s.cleaned, s.lost, Held(s.tasks);
    assert |a + b| == |a| + |b| && |a + b + c| == |a + b| + |c| && |a + b + c + d| == |a + b + c| + |d|;
  }

  lemma RunSnoc(actions: seq<Action>, a: Action)
    requires Enabled(Run(actions), a)
    ensures Run(actions + [a]) == Step(Run(actions), a)
  {
    hide Step, Enabled;
    assert (actions + [a])[..|actions|] == actions;
  }

  // ---- Closing ----

  lemma NotDeleted(all: set<nat>, slot: set<nat>, cleaned: set<nat>, lost: set<nat>, held: set<nat>,
                   deleted: set<nat>, blank: set<nat>, kept: set<nat>)
    requires slot + cleaned + lost + held == all && slot !! cleaned !! lost !! held
    requires kept <= cleaned && blank <= all && deleted <= cleaned + slot && deleted !! blank + kept
    requires cleaned <= deleted + blank + kept && slot <= deleted + blank
    ensures all - deleted == blank + kept + lost + held
  {
  }

  lemma CloseDeletes(s: System)
    requires BlanksKnown(s)
    ensures InSlot(Step(s, Close(true)).slot) <= Step(s, Close(true)).deleted + Step(s, Close(true)).blank
  {
    hide Blank;
  }

  /** After a close that succeeds, exactly these are left undeleted: sandboxes with a blank id, those whose
      cleanup failed, losers of installation races, and those still in flight. */
  lemma LeftAfterClose(actions: seq<Action>)
    ensures var s := Run(actions + [Close(true)]);
            Serials(s.created) - s.deleted == s.blank + s.kept + s.lost + Held(s.tasks)
  {
    hide Run, Held, Step, Blank, Serials, Injective, OneSandbox;
    RunStaysSafe(actions);
    RunStaysSafe(actions + [Close(true)]);
    RunSnoc(actions, Close(true));
    CloseDeletes(Run(actions));
    var s := Run(actions + [Close(true)]);
    SerialsExactly(s.created);
    NotDeleted(Serials(s.created), InSlot(s.slot), s.cleaned, s.lost, Held(s.tasks), s.deleted, s.blank, s.kept);
  }

  /** Each call runs to its end before the next one starts. */
  predicate Serial(actions: seq<Action>) {
    actions == []
    || (Serial(actions[..|actions| - 1])
        && (actions[|actions| - 1].Enter? ==> Run(actions[..|actions| - 1]).tasks == map[]))
  }

  /** The only call under way is the one that will install. */
  predicate Alone(s: System) {
    && s.lost == {}
    && (forall c, d :: c in s.tasks && d in s.tasks ==> c == d)
    && (forall c :: c in s.tasks && !s.tasks[c].Executing? ==> s.slot.gateway.None?)
  }

  lemma StepStaysAlone(s: System, a: Action)
    requires Alone(s) && OneSandbox(s) && Enabled(s, a) && (a.Enter? ==> s.tasks == map[])
    ensures Alone(Step(s, a))
  {
    hide Trim, Blank;
  }

  lemma {:induction false} SerialIsAlone(actions: seq<Action>)
    requires Serial(actions)
    ensures Alone(Run(actions))
  {
    hide Step, Enabled;
    if actions != [] {
      SerialIsAlone(actions[..|actions| - 1]);
      RunStaysSafe(actions[..|actions| - 1]);
      var before := Run(actions[..|actions| - 1]);
      if Enabled(before, actions[|actions| - 1]) {
        StepStaysAlone(before, actions[|actions| - 1]);
      }
    }
  }

  /** In a serial run no race is lost, and once all calls have returned a successful close leaves nothing
      undeleted if and only if no sandbox came with a blank id and no cleanup after a failed bootstrap failed. */
  lemma SerialRunLeavesNothing(actions: seq<Action>)
    requires Serial(actions) && Run(actions).tasks == map[]
    ensures Run(actions + [Close(true)]).lost == {}
    ensures var s := Run(actions + [Close(true)]);
            Serials(s.created) <= s.deleted <==> s.blank == {} && s.kept == {}
  {
    var all := actions + [Close(true)];
    assert all[..|all| - 1] == actions;
    SerialIsAlone(actions);
    LeftAfterClose(actions);
    var s := Run(all);
    assert s.lost == {} && s.tasks == map[] by {
      CloseChangesNoTask(Run(actions), true);
    }
    NothingHeld();
    hide Run, Held;
    assert Serials(s.created) - s.deleted == s.blank + s.kept;
  }

  lemma RunThree(actions: seq<Action>, a: Action, b: Action, c: Action)
    requires Enabled(Run(actions), a) && Enabled(Step(Run(actions), a), b) && Enabled(Step(Step(Run(actions), a), b), c)
    ensures Run(actions + [a, b, c]) == Step(Step(Step(Run(actions), a), b), c)
  {
    hide Step, Enabled;
    RunSnoc(actions, a);
    RunSnoc(actions + [a], b);
    RunSnoc(actions + [a] + [b], c);
    assert actions + [a] + [b] + [c] == actions + [a, b, c];
  }

  /** Nothing installed, lost or deleted yet. */
  predicate Untouched(s: System) {
    s.slot == EMPTY && s.lost == {} && s.deleted == {}
  }

  lemma BothCreate(id: string) returns (actions: seq<Action>)
    ensures var s := Run(actions);
            && Untouched(s) && s.created == 1
            && s.tasks == map[0 := Bootstrapping(Sandbox(0, Trim(id))), 1 := Creating]
  {
    hide Run, Blank, Trim;
    StartRun();
    actions := [Enter(0, true), Enter(1, true), Create(0, Some(id))];
    RunThree([], Enter(0, true), Enter(1, true), Create(0, Some(id)));
    assert [] + actions == actions;
  }

  lemma BothBootstrap(id: string, g: Gateway) returns (actions: seq<Action>)
    ensures var s := Run(actions);
            && Untouched(s)
            && s.tasks == map[0 := Installing(Sandbox(0, Trim(id)), g), 1 := Installing(Sandbox(1, Trim(id)), g)]
  {
    hide Run, Blank, Trim;
    var first := BothCreate(id);
    RunThree(first, Create(1, Some(id)), Bootstrap(0, Some(g)), Bootstrap(1, Some(g)));
    actions := first + [Create(1, Some(id)), Bootstrap(0, Some(g)), Bootstrap(1, Some(g))];
  }

  /** Two calls that both find the slot empty: the second to install loses, and its sandbox is never deleted. */
  lemma RaceLeaks(id: string, g: Gateway) returns (actions: seq<Action>)
    ensures Run(actions).tasks == map[]
    ensures Run(actions + [Close(true)]).lost == {1} && 1 !in Run(actions + [Close(true)]).deleted
  {
    hide Run, Blank, Trim;
    var second := BothBootstrap(id, g);
    RunThree(second, Install(0), Install(1), Execute(0));
    var third := second + [Install(0), Install(1), Execute(0)];
    RunSnoc(third, Execute(1));
    actions := third + [Execute(1)];
    RunSnoc(actions, Close(true));
  }

  lemma StartRun()
    ensures Run([]) == START
  {
  }

  lemma CloseChangesNoTask(s: System, ok: bool)
    ensures Step(s, Close(ok)).tasks == s.tasks && Step(s, Close(ok)).lost == s.lost
  {
    hide Blank;
  }

  lemma NothingHeld()
    ensures Held(map[]) == {}
  {
  }

  // ---- One call on its own ----

  /** The first call creates, bootstraps, installs and executes on one sandbox, with the trimmed id that the
      control plane gave it; a close then deletes it unless that id is blank. */
  lemma FirstCallExecutes(c: Caller, id: string, g: Gateway)
    ensures var s := Run([Enter(c, true), Create(c, Some(id)), Bootstrap(c, Some(g)), Install(c), Execute(c)]);
            && s.slot == Slot(Some(Sandbox(0, Trim(id))), Some(g)) && s.tasks == map[]
            && s.created == 1 && s.uses == {(Sandbox(0, Trim(id)), g)}
    ensures var s := Run([Enter(c, true), Create(c, Some(id)), Bootstrap(c, Some(g)), Install(c), Execute(c)]
                         + [Close(true)]);
            s.deleted == if Trim(id) != "" then {0} else {}
  {
    hide Run, Trim;
    StartRun();
    var first := [Enter(c, true), Create(c, Some(id)), Bootstrap(c, Some(g))];
    RunThree([], Enter(c, true), Create(c, Some(id)), Bootstrap(c, Some(g)));
    assert [] + first == first;
    RunSnoc(first, Install(c));
    RunSnoc(first + [Install(c)], Execute(c));
    var all := [Enter(c, true), Create(c, Some(id)), Bootstrap(c, Some(g)), Install(c), Execute(c)];
    assert first + [Install(c)] + [Execute(c)] == all;
    RunSnoc(all, Close(true));
    TrimTwice(id);
  }

  /** Every execution of a reachable state is on the installed pair, and goes on record. */
  lemma ExecutesOnInstalled(actions: seq<Action>, c: Caller)
    requires Enabled(Run(actions), Execute(c))
    ensures var s := Run(actions);
            && s.slot.sandbox.Some? && s.slot.gateway.Some?
            && Run(actions + [Execute(c)]).uses == s.uses + {(s.slot.sandbox.value, s.slot.gateway.value)}
            && Run(actions + [Execute(c)]).tasks == s.tasks - {c}
  {
    RunStaysSafe(actions);
    RunSnoc(actions, Execute(c));
    hide Run;
  }
}
