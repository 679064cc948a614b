/** When the client of a stream gets to see a raw call of the built-in tool, and when the stream's handler
    crashes: the exact conditions, and runs in which it happens. */
module ResponsesLeaks {
  import opened Text
  import opened Usage
  import opened ResponsesModel
  import opened ResponsesJson
  import opened ResponsesStream
  import opened ResponsesTranscript
  import opened ResponsesRefinement
  import opened ResponsesEvents

  // ---- What counts as raw ----

  /** The completion's output contains a call of the built-in tool. */
  predicate ShowsCall(tool: Tool, e: Event) {
    e.Completed? && e.response.Some? && Calls(tool, e.response.value.output) != []
  }

  /** Upstream event e contains a built-in call whose trimmed identifier is x. */
  predicate Owns(tool: Tool, e: Event, x: string) {
    match e
    case ItemAdded(_, item) => IsBuiltinCall(tool, item) && Trim(item.id) == x
    case ItemDone(_, item) => IsBuiltinCall(tool, item) && Trim(item.id) == x
    case Completed(r) => r.Some? && exists item :: item in Calls(tool, r.value.output) && ItemId(item) == x
    case _ => false
  }

  /** x is the identifier of a built-in call somewhere in what the model server sent. */
  predicate Occurs(tool: Tool, sent: seq<Event>, x: string) {
    exists i :: 0 <= i < |sent| && Owns(tool, sent[i], x)
  }

  /** A client event shows a built-in call: as an item, by its arguments, or in a completion. */
  predicate IsRawEvent(tool: Tool, sent: seq<Event>, e: Event) {
    match e
    case ItemAdded(_, item) => IsBuiltinCall(tool, item)
    case ItemDone(_, item) => IsBuiltinCall(tool, item)
    case ArgumentsDelta(id, _) => Occurs(tool, sent, Trim(id))
    case ArgumentsDone(id, _) => Occurs(tool, sent, Trim(id))
    case Completed(_) => ShowsCall(tool, e)
    case _ => false
  }

  predicate NoRawEvents(tool: Tool, sent: seq<Event>, es: seq<Event>) {
    forall i :: 0 <= i < |es| ==> !IsRawEvent(tool, sent, es[i])
  }

  // ---- The condition on the model server ----

  /** A built-in call was added under the identifier x, which is not blank. */
  predicate Announced(tool: Tool, es: seq<Event>, x: string) {
    x != "" && exists i :: 0 <= i < |es| && Adds(tool, es[i], x)
  }

  predicate Adds(tool: Tool, e: Event, x: string) {
    e.ItemAdded? && IsBuiltinCall(tool, e.item) && Trim(e.item.id) == x
  }

  /** The arguments of a built-in call follow its announcement, and no completion that will be forwarded
      contains one. */
  predicate EventDiscreet(c: Context, sent: seq<Event>, before: seq<Event>, nothingPublic: bool, e: Event) {
    match e
    case ArgumentsDelta(id, _) => Occurs(c.tool, sent, Trim(id)) ==> Announced(c.tool, before, Trim(id))
    case ArgumentsDone(id, _) => Occurs(c.tool, sent, Trim(id)) ==> Announced(c.tool, before, Trim(id))
    case Completed(_) => nothingPublic && !HadTool(c, before) ==> !ShowsCall(c.tool, e)
    case _ => true
  }

  predicate Discreet(c: Context, sent: seq<Event>, es: seq<Event>, nothingPublic: bool) {
    es != [] ==>
      && Discreet(c, sent, Front(es), nothingPublic)
      && EventDiscreet(c, sent, Front(es), nothingPublic, Last(es))
  }

  lemma AnnouncedSnoc(tool: Tool, es: seq<Event>, e: Event, x: string)
    ensures Announced(tool, es + [e], x) <==> Announced(tool, es, x) || (x != "" && Adds(tool, e, x))
  {
    hide Adds;
    if Announced(tool, es, x) {
      var i :| 0 <= i < |es| && Adds(tool, es[i], x);
      assert Adds(tool, (es + [e])[i], x);
    }
    assert (es + [e])[|es|] == e;
  }

  /** The router remembers exactly the announced calls. */
  lemma {:induction false} RememberedIsAnnounced(c: Context, es: seq<Event>, x: string)
    ensures x in CallsAfter(c, es) <==> Announced(c.tool, es, x)
  {
    hide Trim, Announced;
    if es == [] {
      assert !Announced(c.tool, es, x) by {
        NothingAnnounced(c.tool, x);
      }
    } else {
      RememberedIsAnnounced(c, Front(es), x);
      AnnouncedSnoc(c.tool, Front(es), Last(es), x);
      assert es == Front(es) + [Last(es)];
    }
  }

  lemma NothingAnnounced(tool: Tool, x: string)
    ensures !Announced(tool, [], x)
  {
  }

  lemma RewriteDiscreetExactly(c: Context, sent: seq<Event>, before: seq<Event>, np: bool, e: Event)
    ensures NoRawEvents(c.tool, sent, Rewrite(c, CallsAfter(c, before), HadTool(c, before) || !np, e))
            <==> EventDiscreet(c, sent, before, np, e)
  {
    hide Trim, Occurs, ShowsCall, HadTool, CallsAfter, Announced;
    var calls, quiet := CallsAfter(c, before), HadTool(c, before) || !np;
    match e
    case ArgumentsDelta(id, _) =>
      RememberedIsAnnounced(c, before, Trim(id));
      OneEvent(c.tool, sent, e);
    case ArgumentsDone(id, _) =>
      RememberedIsAnnounced(c, before, Trim(id));
      OneEvent(c.tool, sent, e);
    case _ =>
      OneEvent(c.tool, sent, e);
  }

  lemma OneEvent(tool: Tool, sent: seq<Event>, e: Event)
    ensures NoRawEvents(tool, sent, [e]) <==> !IsRawEvent(tool, sent, e)
  {
    hide IsRawEvent;
    assert [e][0] == e;
  }

  lemma NoRawEventsAppend(tool: Tool, sent: seq<Event>, a: seq<Event>, b: seq<Event>)
    ensures NoRawEvents(tool, sent, a + b) <==> NoRawEvents(tool, sent, a) && NoRawEvents(tool, sent, b)
  {
    hide IsRawEvent;
    assert forall i :: 0 <= i < |a| ==> (a + b)[i] == a[i];
    assert forall i :: 0 <= i < |b| ==> (a + b)[|a| + i] == b[i];
  }

  /** While a hop streams, nothing raw is forwarded if and only if its events are discreet. */
  lemma {:induction false} EmissionDiscreetExactly(c: Context, sent: seq<Event>, es: seq<Event>, np: bool)
    ensures NoRawEvents(c.tool, sent, Emission(c, es, np)) <==> Discreet(c, sent, es, np)
  {
    hide NoRawEvents, EventDiscreet, Rewrite, HadTool, CallsAfter;
    if es == [] {
      assert NoRawEvents(c.tool, sent, []) by {
        NothingRaw(c.tool, sent);
      }
    } else {
      EmissionDiscreetExactly(c, sent, Front(es), np);
      RewriteDiscreetExactly(c, sent, Front(es), np, Last(es));
      NoRawEventsAppend(c.tool, sent, Emission(c, Front(es), np),
                        Rewrite(c, CallsAfter(c, Front(es)), HadTool(c, Front(es)) || !np, Last(es)));
    }
  }

  lemma NothingRaw(tool: Tool, sent: seq<Event>)
    ensures NoRawEvents(tool, sent, [])
  {
  }

  // ---- Whole runs ----

  /** The events that the handler reads from a reply. */
  function EventsOf(r: StreamReply): seq<Event> {
    if r.StreamReply? && r.status < 400 then r.events else []
  }

  /** All that the model server sent in the first k hops. */
  function Upstream(script: nat -> StreamReply, k: nat): seq<Event> {
    if k == 0 then [] else Upstream(script, k - 1) + EventsOf(script(k - 1))
  }

  lemma EndAtMost(c: Context, script: nat -> StreamReply)
    ensures StreamEnd(c, script) <= MAX_TOOL_ITERATIONS
  {
  }

  /** Hop k gives away no call that occurs in `sent`. */
  predicate HopDiscreet(c: Context, script: nat -> StreamReply, sent: seq<Event>, k: nat) {
    Discreet(c, sent, EventsOf(script(k)), PublicOutput(c, StreamHops(script), k) == [])
  }

  predicate AllDiscreet(c: Context, script: nat -> StreamReply, sent: seq<Event>, k: nat) {
    k > 0 ==> AllDiscreet(c, script, sent, k - 1) && HopDiscreet(c, script, sent, k - 1)
  }

  /** The last hop of an assembled answer showed the tool in use, or contains no call of it. */
  predicate AnswerDiscreet(c: Context, script: nat -> StreamReply) {
    StreamResult(c, script).Finished? ==>
      var n := StreamEnd(c, script);
      HadTool(c, EventsOf(script(n))) || Calls(c.tool, StreamHops(script)(n).output) == []
  }

  lemma {:induction false} TailHasNothingRaw(tool: Tool, sent: seq<Event>, calls: StreamCalls, items: seq<Item>)
    requires forall i :: 0 <= i < |items| ==> items[i].ExecutedCall?
    ensures NoRawEvents(tool, sent, Tail(calls, items))
  {
    hide ItemId, Occurs, ShowsCall;
    if items != [] {
      TailHasNothingRaw(tool, sent, calls, Front(items));
      assert NoRawEvents(tool, sent, TailFor(calls, Last(items)));
    }
  }

  lemma HopTailHasNothingRaw(c: Context, script: nat -> StreamReply, sent: seq<Event>, k: nat)
    requires HonoursContract(c.tool) && Reported(c, script, k)
    ensures NoRawEvents(c.tool, sent, HopTail(c, script, k))
  {
    hide CallsAfter, HonoursContract, NoRawEvents, StreamHops;
    var output := StreamHops(script)(k).output;
    ExecutedMatchCalls(c.tool, Ran(c.tool, StreamHops(script), k), output, |output|);
    TailHasNothingRaw(c.tool, sent, CallsAfter(c, script(k).events), ExecutedBy(c, StreamHops(script), k));
  }

  lemma EmissionOfHopExactly(c: Context, script: nat -> StreamReply, sent: seq<Event>, k: nat)
    ensures NoRawEvents(c.tool, sent, HopEmission(c, script, k)) <==> HopDiscreet(c, script, sent, k)
  {
    hide NoRawEvents, EventDiscreet, Emission, PublicOutput;
    NothingRaw(c.tool, sent);
    if script(k).StreamReply? && script(k).status < 400 {
      EmissionDiscreetExactly(c, sent, script(k).events, PublicOutput(c, StreamHops(script), k) == []);
    }
  }

  /** The hops that go on give nothing raw away exactly if they are discreet. */
  lemma {:induction false} GoingHopsExactly(c: Context, script: nat -> StreamReply, sent: seq<Event>, k: nat)
    requires HonoursContract(c.tool) && AllGo(StreamGoing(c, script), k)
    ensures NoRawEvents(c.tool, sent, EventsUpTo(c, script, k)) <==> AllDiscreet(c, script, sent, k)
  {
    hide HonoursContract, NoRawEvents, HopDiscreet, HopEmission, HopTail, Reported;
    if k == 0 {
      NothingRaw(c.tool, sent);
    } else {
      GoingHopsExactly(c, script, sent, k - 1);
      GoingHopReported(c, script, k, k - 1);
      HopTailHasNothingRaw(c, script, sent, k - 1);
      EmissionOfHopExactly(c, script, sent, k - 1);
      var before, emission := EventsUpTo(c, script, k - 1), HopEmission(c, script, k - 1);
      NoRawEventsAppend(c.tool, sent, before + emission, HopTail(c, script, k - 1));
      NoRawEventsAppend(c.tool, sent, before, emission);
    }
  }

  lemma GoingHopReported(c: Context, script: nat -> StreamReply, n: nat, k: nat)
    requires AllGo(StreamGoing(c, script), n) && k < n
    ensures Reported(c, script, k)
  {
    hide Runs, HadTool, HasUserCall;
    EachGoes(StreamGoing(c, script), n);
    assert StreamGoing(c, script)(k);
  }

  /** What an assembled answer shows: a raw call if and only if its last hop contained one and no event of that
      hop showed the tool in use. */
  lemma FinalResponseShowsCallExactly(c: Context, script: nat -> StreamReply)
    requires HonoursContract(c.tool) && StreamResult(c, script).Finished?
    ensures var n := StreamEnd(c, script);
            (exists p :: 0 <= p < |StreamResult(c, script).response.output|
                         && IsBuiltinCall(c.tool, StreamResult(c, script).response.output[p]))
            <==> !HadTool(c, EventsOf(script(n))) && Calls(c.tool, StreamHops(script)(n).output) != []
  {
    hide HonoursContract, HadTool, Calls, StreamEnd, IsBuiltinCall, PublicOutput, Accumulated, Runs, Ran;
    var n, hops := StreamEnd(c, script), StreamHops(script);
    var output := StreamResult(c, script).response.output;
    assert script(n).StreamReply? && StreamResult(c, script) == StreamStop(c, script, n);
    if HadTool(c, EventsOf(script(n))) || Calls(c.tool, hops(n).output) == [] {
      forall p | 0 <= p < |output| ensures !IsBuiltinCall(c.tool, output[p]) {
        NoBuiltinCallInFinalResponse(c, script, p);
      }
    } else {
      var p := SomeCallIn(c.tool, hops(n).output);
      var before := PublicOutput(c, hops, n);
      assert output == before + hops(n).output;
      assert output[|before| + p] == hops(n).output[p];
    }
  }

  lemma {:induction false} SomeCall(tool: Tool, items: seq<Item>, i: nat) returns (p: nat)
    requires i <= |items| && CallsUpTo(tool, items, i) != []
    ensures p < i && IsBuiltinCall(tool, items[p])
  {
    if IsBuiltinCall(tool, items[i - 1]) {
      p := i - 1;
    } else {
      p := SomeCall(tool, items, i - 1);
    }
  }

  lemma SomeCallIn(tool: Tool, items: seq<Item>) returns (p: nat)
    requires Calls(tool, items) != []
    ensures p < |items| && IsBuiltinCall(tool, items[p])
  {
    p := SomeCall(tool, items, |items|);
  }

  lemma {:induction false} CallMakesCalls(tool: Tool, items: seq<Item>, i: nat, p: nat)
    requires p < i <= |items| && IsBuiltinCall(tool, items[p])
    ensures CallsUpTo(tool, items, i) != []
  {
    if p < i - 1 {
      CallMakesCalls(tool, items, i - 1, p);
    }
  }

  lemma ResponseShowsExactly(tool: Tool, response: Response)
    ensures ShowsCall(tool, Completed(Some(response)))
            <==> exists p :: 0 <= p < |response.output| && IsBuiltinCall(tool, response.output[p])
  {
    hide IsBuiltinCall;
    if ShowsCall(tool, Completed(Some(response))) {
      var p := SomeCallIn(tool, response.output);
    }
    forall p | 0 <= p < |response.output| && IsBuiltinCall(tool, response.output[p])
      ensures ShowsCall(tool, Completed(Some(response)))
    {
      CallMakesCalls(tool, response.output, |response.output|, p);
    }
  }

  /** The end of a run gives nothing raw away exactly if the assembled answer does not. */
  lemma ClosingExactly(c: Context, script: nat -> StreamReply, sent: seq<Event>)
    requires HonoursContract(c.tool) && StreamEnd(c, script) < MAX_TOOL_ITERATIONS
    ensures NoRawEvents(c.tool, sent, Closing(c, script, StreamEnd(c, script))) <==> AnswerDiscreet(c, script)
  {
    hide HonoursContract, HadTool, Calls, StreamEnd, NoRawEvents, StreamStop, HopTail, ShowsCall;
    var n := StreamEnd(c, script);
    NothingRaw(c.tool, sent);
    if StreamStop(c, script, n).Finished? {
      var response := StreamStop(c, script, n).response;
      LastHopReported(c, script, n);
      var used := HadTool(c, script(n).events);
      var body := if used then HopTail(c, script, n) else [];
      if used {
        HopTailHasNothingRaw(c, script, sent, n);
      }
      NoRawEventsAppend(c.tool, sent, body, [Completed(Some(response))]);
      OneEvent(c.tool, sent, Completed(Some(response)));
      ResponseShowsExactly(c.tool, response);
      FinalResponseShowsCallExactly(c, script);
    }
  }

  /** No event of a run shows the client a built-in call of the run, as an item, by its arguments or in a
      completion, if and only if in every hop the arguments of such a call follow its announcement in the same
      hop under a non-blank identifier, no completion forwarded before the tool was used contains one, and the
      answer was not assembled from a last hop that contains one but never showed the tool in use. */
  lemma NoRawCallLeaksExactly(c: Context, script: nat -> StreamReply)
    requires HonoursContract(c.tool)
    ensures var used := HopsUsed(StreamEnd(c, script));
            var sent := Upstream(script, used);
            NoRawEvents(c.tool, sent, ClientEvents(c, script))
            <==> AllDiscreet(c, script, sent, used) && AnswerDiscreet(c, script)
  {
    hide HonoursContract, StreamEnd, NoRawEvents, HopDiscreet, AnswerDiscreet, HopEmission, Closing, EventsUpTo,
         Upstream;
    var n := StreamEnd(c, script);
    var sent := Upstream(script, HopsUsed(n));
    EndReached(c, script);
    EndAtMost(c, script);
    GoingHopsExactly(c, script, sent, n);
    if n < MAX_TOOL_ITERATIONS {
      EmissionOfHopExactly(c, script, sent, n);
      ClosingExactly(c, script, sent);
      var before, emission := EventsUpTo(c, script, n), HopEmission(c, script, n);
      NoRawEventsAppend(c.tool, sent, before + emission, Closing(c, script, n));
      NoRawEventsAppend(c.tool, sent, before, emission);
    } else {
      NotAssembled(c, script);
    }
  }

  lemma NotAssembled(c: Context, script: nat -> StreamReply)
    requires StreamEnd(c, script) == MAX_TOOL_ITERATIONS
    ensures AnswerDiscreet(c, script)
  {
    hide StreamEnd, StreamStop;
  }

  // ---- A run that passes its first hop through ----

  lemma {:induction false} UntouchedPassesCompletions(c: Context, es: seq<Event>, e: Event)
    requires e.Completed? && !HadTool(c, es)
    ensures e in Emission(c, es, true) <==> e in es
  {
    hide Trim, CallsAfter;
    if es != [] {
      UntouchedPassesCompletions(c, Front(es), e);
      assert es == Front(es) + [Last(es)];
      assert e in Rewrite(c, CallsAfter(c, Front(es)), false, Last(es)) <==> e == Last(es);
    }
  }

  /** A hop that is passed through shows its completions as they are, so a built-in call in one of them is
      shown exactly if the model server sent it. */
  lemma PassedThroughShowsCompletions(c: Context, script: nat -> StreamReply, e: Event)
    requires StreamResult(c, script).PassedThrough? && e.Completed?
    ensures var n := StreamEnd(c, script);
            e in HopEmission(c, script, n) <==> e in EventsOf(script(n))
  {
    hide HadTool, StreamEnd, PublicOutput, Accumulated, Runs, Emission;
    var n := StreamEnd(c, script);
    UntouchedPassesCompletions(c, script(n).events, e);
  }

  // ---- The crash ----

  /** The handler crashes exactly when a later hop uses no tool and completes without a response object. */
  lemma CrashesExactly(c: Context, script: nat -> StreamReply)
    ensures StreamResult(c, script).Crashed? <==>
              var n, hops := StreamEnd(c, script), StreamHops(script);
              && n < MAX_TOOL_ITERATIONS
              && script(n).StreamReply? && script(n).status < 400 && script(n).intact
              && !HadTool(c, script(n).events) && PublicOutput(c, hops, n) != []
              && LastCompleted(script(n).events).None?
  {
    hide StreamEnd, HadTool, PublicOutput, LastCompleted, Accumulated, Runs, Ran;
  }

  /** Its twin without streaming crashes exactly when the body is the literal null and either something is
      public already or the client library cannot decode it. */
  lemma JsonCrashesExactly(c: Context, script: nat -> JsonReply)
    ensures JsonResult(c, script).JsonCrashed? <==>
              var n, hops := JsonEnd(c, script), JsonHops(script);
              && n < MAX_TOOL_ITERATIONS
              && script(n).JsonReply? && script(n).status < 400 && script(n).body.None? && script(n).isNull
              && (PublicOutput(c, hops, n) != [] || !script(n).typed)
  {
    hide JsonEnd, PublicOutput, Accumulated, Runs, Ran, Calls;
  }

  // ---- Runs in which it happens ----

  /** A first hop, and the same stream for every later hop. */
  function TwoHops(first: seq<Event>, later: seq<Event>): nat -> StreamReply {
    (k: nat) => StreamReply(200, "", if k == 0 then first else later, true)
  }

  function Completes(output: seq<Item>): Event {
    Completed(Some(Response(output, None, "")))
  }

  /** The events of a hop that announces the call and makes it. */
  function Announcing(call: Item): seq<Event> {
    [ItemAdded(0, call), Completes([call])]
  }

  /** The hop shows the tool in use and completes with the one call, which can be executed. */
  predicate MakesCall(c: Context, call: Item, first: seq<Event>) {
    && IsBuiltinCall(c.tool, call) && IsComplete(c.tool.execute(0, call))
    && HadTool(c, first) && LastCompleted(first) == Some(Response([call], None, ""))
  }

  lemma AnnouncingMakesCall(c: Context, call: Item)
    requires IsBuiltinCall(c.tool, call) && IsComplete(c.tool.execute(0, call))
    ensures MakesCall(c, call, Announcing(call))
  {
    var es := Announcing(call);
    assert Front(es) == [ItemAdded(0, call)] && Front(Front(es)) == [];
    assert HadTool(c, Front(es));
  }

  lemma FirstHopGoesOn(c: Context, call: Item, first: seq<Event>, later: seq<Event>)
    requires MakesCall(c, call, first)
    ensures StreamGoesOn(c, TwoHops(first, later), 0)
    ensures |PublicOutput(c, StreamHops(TwoHops(first, later)), 1)| == 1
  {
    hide Trim, HadTool, LastCompleted;
    var script := TwoHops(first, later);
    assert script(0) == StreamReply(200, "", first, true);
    assert StreamHops(script)(0) == StreamHop(script(0));
    OneCallRuns(c, call);
  }

  lemma EndsAtSecondHop(c: Context, call: Item, first: seq<Event>, later: seq<Event>)
    requires MakesCall(c, call, first) && !HadTool(c, later)
    ensures StreamEnd(c, TwoHops(first, later)) == 1
  {
    hide HadTool, Runs, HasUserCall, MakesCall;
    FirstHopGoesOn(c, call, first, later);
    assert !StreamGoesOn(c, TwoHops(first, later), 1);
    StopsAt(StreamGoing(c, TwoHops(first, later)), 1);
  }

  /** If the second hop uses no tool and completes with a response, that ends the run successfully, and what it
      forwards is among the client's events. */
  lemma FinishesAtSecondHop(c: Context, call: Item, first: seq<Event>, later: seq<Event>)
    requires MakesCall(c, call, first) && !HadTool(c, later) && LastCompleted(later).Some?
    ensures StreamEnd(c, TwoHops(first, later)) == 1 && StreamResult(c, TwoHops(first, later)).Finished?
    ensures forall e :: e in Emission(c, first, true) || e in Emission(c, later, false) ==>
              e in ClientEvents(c, TwoHops(first, later))
  {
    hide HadTool, LastCompleted, Emission, StreamEnd, PublicOutput, Accumulated, Runs, Ran, MakesCall, HopTail, Closing;
    var script := TwoHops(first, later);
    FirstHopGoesOn(c, call, first, later);
    EndsAtSecondHop(c, call, first, later);
    assert PublicOutput(c, StreamHops(script), 0) == [] by {
      BeforeFirstHop(c, StreamHops(script));
    }
    assert HopEmission(c, script, 0) == Emission(c, first, true);
    assert HopEmission(c, script, 1) == Emission(c, later, false);
    assert EventsUpTo(c, script, 1) == [] + HopEmission(c, script, 0) + HopTail(c, script, 0);
  }

  /** A second hop without events crashes the handler. */
  lemma CrashHappens(c: Context, call: Item)
    requires IsBuiltinCall(c.tool, call) && IsComplete(c.tool.execute(0, call))
    ensures StreamResult(c, TwoHops(Announcing(call), [])).Crashed?
  {
    hide StreamEnd, PublicOutput, Accumulated, Runs, Ran, IsBuiltinCall, MakesCall;
    AnnouncingMakesCall(c, call);
    FirstHopGoesOn(c, call, Announcing(call), []);
    EndsAtSecondHop(c, call, Announcing(call), []);
    CrashesExactly(c, TwoHops(Announcing(call), []));
  }

  /** Without streaming, a second reply that is the literal null does. */
  function ThenNull(call: Item): nat -> JsonReply {
    (k: nat) =>
      if k == 0 then JsonReply(200, "", Some(Response([call], None, "")), false, true, "")
      else JsonReply(200, "", None, true, true, "null")
  }

  lemma JsonCrashHappens(c: Context, call: Item)
    requires IsBuiltinCall(c.tool, call) && IsComplete(c.tool.execute(0, call))
    ensures JsonResult(c, ThenNull(call)).JsonCrashed?
  {
    var script := ThenNull(call);
    hide Trim;
    assert script(0).JsonReply? && script(0).body == Some(Response([call], None, ""));
    assert JsonHops(script)(0) == JsonHop(script(0));
    OneCallRuns(c, call);
    assert JsonGoesOn(c, script, 0);
    assert script(1).body.None? && !JsonGoesOn(c, script, 1);
    assert AllGo(JsonGoing(c, script), 1);
    StopsAt(JsonGoing(c, script), 1);
    assert PublicOutput(c, JsonHops(script), 0) == [] && |PublicOutput(c, JsonHops(script), 1)| == 1;
    hide JsonEnd, Calls, Accumulated, Ran, PublicOutput;
    JsonCrashesExactly(c, script);
  }

  lemma OneCallRuns(c: Context, call: Item)
    requires IsBuiltinCall(c.tool, call) && IsComplete(c.tool.execute(0, call))
    ensures Calls(c.tool, [call]) == [call] && Runs(c.tool, 0, [call]) && !HasUserCall(c.tool, [call])
  {
    hide Trim;
    assert CallsUpTo(c.tool, [call], 0) == [];
    assert !UserCallUpTo(c.tool, [call], 0);
  }

  /** A second hop that completes with a call it never announced: the assembled answer shows the call. */
  lemma UnannouncedCallInAnswer(c: Context, call: Item)
    requires IsBuiltinCall(c.tool, call) && IsComplete(c.tool.execute(0, call))
    ensures var result := StreamResult(c, TwoHops(Announcing(call), [Completes([call])]));
            && result.Finished? && |result.response.output| == 2 && result.response.output[1] == call
  {
    hide StreamEnd, PublicOutput, Accumulated, Runs, Ran, IsBuiltinCall, MakesCall;
    var first, later := Announcing(call), [Completes([call])];
    assert Front(later) == [] && !HadTool(c, later);
    AnnouncingMakesCall(c, call);
    FirstHopGoesOn(c, call, first, later);
    EndsAtSecondHop(c, call, first, later);
    assert TwoHops(first, later)(1).events == later && LastCompleted(later) == Some(Response([call], None, ""));
  }

  /** Every hop gives the arguments of a call that it never announced and completes with it. */
  function Unannounced(call: Item, arguments: string): nat -> StreamReply
    requires call.FunctionCall?
  {
    (k: nat) =>
      StreamReply(200, "", [ArgumentsDone(call.id, arguments), Completed(Some(Response([call], None, "")))], true)
  }

  /** Then the run succeeds, the client receives exactly these two events, and both are raw. */
  lemma UnannouncedCallLeaks(c: Context, call: Item, arguments: string)
    requires IsBuiltinCall(c.tool, call)
    ensures var script := Unannounced(call, arguments);
            var es := script(0).events;
            && StreamEnd(c, script) == 0 && StreamResult(c, script).PassedThrough? && ClientEvents(c, script) == es
            && Upstream(script, 1) == es && IsRawEvent(c.tool, es, es[0]) && IsRawEvent(c.tool, es, es[1])
  {
    hide Trim;
    var script := Unannounced(call, arguments);
    var es := script(0).events;
    assert Front(es) == [ArgumentsDone(call.id, arguments)] && Front(Front(es)) == [];
    assert Emission(c, [], true) == [] && CallsAfter(c, []) == map[] && CallsAfter(c, Front(es)) == map[];
    assert Emission(c, Front(es), true) == Front(es);
    assert !HadTool(c, Front(es)) && !HadTool(c, es);
    assert Emission(c, es, true) == es;
    assert !StreamGoesOn(c, script, 0);
    StopsAt(StreamGoing(c, script), 0);
    assert PublicOutput(c, StreamHops(script), 0) == [];
    assert Calls(c.tool, [call]) == [call] by {
      assert CallsUpTo(c.tool, [call], 0) == [];
    }
    assert call in Calls(c.tool, [call]) && ItemId(call) == Trim(call.id);
    assert Owns(c.tool, es[1], Trim(call.id));
    assert Upstream(script, 1) == [] + es;
  }

  /** In a successful run, a call announced under a blank identifier is not remembered, so its arguments reach
      the client raw. */
  lemma BlankIdentifierLeaks(c: Context, call: Item, fragment: string)
    requires IsBuiltinCall(c.tool, call) && Trim(call.id) == "" && IsComplete(c.tool.execute(0, call))
    ensures var e := ArgumentsDelta(call.id, fragment);
            var first := [ItemAdded(0, call), e, Completes([call])];
            var script := TwoHops(first, [Completes([])]);
            && StreamEnd(c, script) == 1 && StreamResult(c, script).Finished?
            && e in ClientEvents(c, script) && IsRawEvent(c.tool, Upstream(script, 2), e)
  {
    hide Trim;
    var e, later := ArgumentsDelta(call.id, fragment), [Completes([])];
    var added := [ItemAdded(0, call)];
    var first := added + [e] + [Completes([call])];
    assert first == [ItemAdded(0, call), e, Completes([call])];
    assert Front(added) == [] && HadTool(c, added);
    MemoryGrows(c, added, e);
    MemoryGrows(c, added + [e], Completes([call]));
    assert CallsAfter(c, []) == map[] && CallsAfter(c, added) == TrackCalls(c, map[], added[0]);
    EmissionGrows(c, added, e, true);
    EmissionGrows(c, added + [e], Completes([call]), true);
    assert e in Emission(c, added + [e], true);
    assert Front(later) == [] && !HadTool(c, later);
    FinishesAtSecondHop(c, call, first, later);
    OwnedUpstream(c.tool, TwoHops(first, later), first, later, first[0], Trim(call.id));
  }

  lemma OwnedUpstream(tool: Tool, script: nat -> StreamReply, first: seq<Event>, later: seq<Event>, e: Event, x: string)
    requires script == TwoHops(first, later) && e in first && Owns(tool, e, x)
    ensures Occurs(tool, Upstream(script, 2), x)
  {
    hide Owns;
    assert Upstream(script, 1) == [] + first && Upstream(script, 2) == [] + first + later;
    var i :| 0 <= i < |first| && first[i] == e;
    assert Upstream(script, 2)[i] == e;
  }

  /** What was announced is forgotten with its hop: in a successful run whose first hop announced and made a
      call, a fragment of that call's arguments in the second hop reaches the client raw. */
  lemma LaterFragmentLeaks(c: Context, call: Item, fragment: string)
    requires IsBuiltinCall(c.tool, call) && IsComplete(c.tool.execute(0, call))
    ensures var e := ArgumentsDelta(call.id, fragment);
            var script := TwoHops(Announcing(call), [e, Completes([])]);
            && StreamEnd(c, script) == 1 && StreamResult(c, script).Finished?
            && e in ClientEvents(c, script) && IsRawEvent(c.tool, Upstream(script, 2), e)
  {
    hide Trim, MakesCall;
    var e, first := ArgumentsDelta(call.id, fragment), Announcing(call);
    var later := [e, Completes([])];
    assert Front(later) == [e] && Front([e]) == [];
    assert CallsAfter(c, []) == map[] && !HadTool(c, [e]);
    assert CallsAfter(c, [e]) == TrackCalls(c, map[], e) == map[] && !HadTool(c, later);
    assert Emission(c, [], false) == [] && Emission(c, [e], false) == [e] && e in Emission(c, later, false);
    AnnouncingMakesCall(c, call);
    FinishesAtSecondHop(c, call, first, later);
    OwnedUpstream(c.tool, TwoHops(first, later), first, later, first[0], Trim(call.id));
  }
}
