/** The event grammar that a streaming client sees. */
module ResponsesEvents {
  import opened Text
  import opened Usage
  import opened ResponsesModel
  import opened ResponsesTranscript
  import opened ResponsesStream
  import opened ResponsesRefinement

  /** The output item an event is about, "" if none. */
  function ItemOf(e: Event): string {
    match e
    case ItemAdded(_, item) => ItemId(item)
    case ItemDone(_, item) => ItemId(item)
    case ArgumentsDelta(id, _) => Trim(id)
    case ArgumentsDone(id, _) => Trim(id)
    case CodeDelta(id, _, _) => Trim(id)
    case CodeDone(id, _, _) => Trim(id)
    case ToolProgress(_, id, _) => Trim(id)
    case OtherEvent(id, _) => Trim(id)
    case Completed(_) => ""
  }

  /** The events about item x, in order. */
  function About(x: string, es: seq<Event>): seq<Event> {
    if es == [] then []
    else About(x, Front(es)) + (if ItemOf(Last(es)) == x then [Last(es)] else [])
  }

  lemma {:induction false} AboutAppend(x: string, a: seq<Event>, b: seq<Event>)
    ensures About(x, a + b) == About(x, a) + About(x, b)
  {
    hide ItemOf;
    if b == [] {
      assert a + b == a;
    } else {
      AboutAppend(x, a, Front(b));
      assert Front(a + b) == a + Front(b) && Last(a + b) == Last(b);
    }
  }

  lemma AboutThree(x: string, a: seq<Event>, b: seq<Event>, d: seq<Event>)
    ensures About(x, a + b + d) == About(x, a) + (About(x, b) + About(x, d))
  {
    hide About;
    AboutAppend(x, a + b, d);
    AboutAppend(x, a, b);
  }

  lemma AboutStep(x: string, es: seq<Event>)
    ensures About(x, []) == []
    ensures es != [] ==> About(x, es) == About(x, Front(es)) + (if ItemOf(Last(es)) == x then [Last(es)] else [])
    ensures es != [] ==> es == Front(es) + [Last(es)]
  {
    hide ItemOf;
  }

  lemma {:induction false} AboutAll(x: string, es: seq<Event>)
    requires forall i :: 0 <= i < |es| ==> ItemOf(es[i]) == x
    ensures About(x, es) == es
  {
    hide ItemOf, About;
    AboutStep(x, es);
    if es != [] {
      AboutAll(x, Front(es));
    }
  }

  lemma {:induction false} AboutNone(x: string, es: seq<Event>)
    requires forall i :: 0 <= i < |es| ==> ItemOf(es[i]) != x
    ensures About(x, es) == []
  {
    hide ItemOf, About;
    AboutStep(x, es);
    if es != [] {
      AboutNone(x, Front(es));
    }
  }

  // ---- Rewriting is local to an item ----

  /** Two memories agree on item x. */
  predicate Agree(x: string, a: StreamCalls, b: StreamCalls) {
    (x in a <==> x in b) && (x in a ==> a[x] == b[x])
  }

  lemma RewriteStaysOnItem(c: Context, calls: StreamCalls, quiet: bool, e: Event)
    ensures forall i :: 0 <= i < |Rewrite(c, calls, quiet, e)| ==> ItemOf(Rewrite(c, calls, quiet, e)[i]) == ItemOf(e)
  {
    hide Trim;
    match e
    case ItemAdded(_, item) =>
      if item.FunctionCall? {
        TrimTwice(item.id);
      }
    case ArgumentsDone(id, _) => TrimTwice(id);
    case _ =>
  }

  lemma RewriteDependsOnItem(c: Context, a: StreamCalls, b: StreamCalls, qa: bool, qb: bool, e: Event, x: string)
    requires ItemOf(e) == x != "" && Agree(x, a, b)
    ensures Rewrite(c, a, qa, e) == Rewrite(c, b, qb, e)
    ensures Agree(x, TrackCalls(c, a, e), TrackCalls(c, b, e))
  {
    hide Trim;
  }

  lemma TrackElsewhere(c: Context, a: StreamCalls, b: StreamCalls, e: Event, x: string)
    requires ItemOf(e) != x && Agree(x, a, b)
    ensures Agree(x, TrackCalls(c, a, e), b)
  {
    hide Trim;
  }

  lemma AboutRewrite(c: Context, calls: StreamCalls, quiet: bool, e: Event, x: string)
    ensures About(x, Rewrite(c, calls, quiet, e)) == if ItemOf(e) == x then Rewrite(c, calls, quiet, e) else []
  {
    hide ItemOf, Rewrite;
    RewriteStaysOnItem(c, calls, quiet, e);
    if ItemOf(e) == x {
      AboutAll(x, Rewrite(c, calls, quiet, e));
    } else {
      AboutNone(x, Rewrite(c, calls, quiet, e));
    }
  }

  /** Projection commutes with rewriting: what the client sees of an item depends only on what the model
      server said about that item, however the events of different items are interleaved. */
  lemma {:induction false} ProjectionCommutes(c: Context, es: seq<Event>, x: string, nothingPublic: bool)
    requires x != ""
    ensures Agree(x, CallsAfter(c, es), CallsAfter(c, About(x, es)))
    ensures About(x, Emission(c, es, nothingPublic)) == Emission(c, About(x, es), nothingPublic)
  {
    hide ItemOf, Rewrite, TrackCalls, HadTool, Agree;
    if es == [] {
      assert Agree(x, map[], map[]) by {
        AgreeRefl(x, map[]);
      }
      return;
    }
    var front, e := Front(es), Last(es);
    ProjectionCommutes(c, front, x, nothingPublic);
    var calls, calls' := CallsAfter(c, front), CallsAfter(c, About(x, front));
    var quiet := HadTool(c, front) || !nothingPublic;
    AboutAppend(x, Emission(c, front, nothingPublic), Rewrite(c, calls, quiet, e));
    AboutRewrite(c, calls, quiet, e, x);
    if ItemOf(e) == x {
      var quiet' := HadTool(c, About(x, front)) || !nothingPublic;
      RewriteDependsOnItem(c, calls, calls', quiet, quiet', e, x);
      assert Front(About(x, es)) == About(x, front) && Last(About(x, es)) == e;
    } else {
      TrackElsewhere(c, calls, calls', e, x);
      assert About(x, es) == About(x, front);
    }
  }

  lemma AgreeRefl(x: string, a: StreamCalls)
    ensures Agree(x, a, a)
  {
  }

  // ---- The story of one built-in call ----

  /** How a model server announces one call: it adds the item, streams the arguments in fragments, gives
      them whole at most once, and finishes the item. */
  datatype Announcement = Announcement(
    index: int, call: Item, fragments: seq<string>, arguments: Option<string>, doneIndex: int, doneCall: Item)

  predicate WellAnnounced(tool: Tool, a: Announcement, x: string) {
    IsBuiltinCall(tool, a.call) && Trim(a.call.id) == x && x != "" && IsBuiltinCall(tool, a.doneCall)
  }

  function Fragments(id: string, fragments: seq<string>): seq<Event> {
    seq(|fragments|, i requires 0 <= i < |fragments| => ArgumentsDelta(id, fragments[i]))
  }

  /** The upstream events of an announced call. */
  function Spell(a: Announcement): seq<Event>
    requires a.call.FunctionCall?
  {
    [ItemAdded(a.index, a.call)] + Fragments(a.call.id, a.fragments)
    + (if a.arguments.Some? then [ArgumentsDone(a.call.id, a.arguments.value)] else [])
    + [ItemDone(a.doneIndex, a.doneCall)]
  }

  function CodeEvents(c: Context, a: Announcement, x: string): seq<Event> {
    var code := if a.arguments.Some? then c.codeIn(Trim(a.arguments.value)) else "";
    if code == "" then [] else [CodeDelta(x, a.index, code), CodeDone(x, a.index, code)]
  }

  /** The client events of the same call, once it was executed with the given public item. */
  function ClientStory(c: Context, a: Announcement, x: string, public: Item): seq<Event> {
    [ItemAdded(a.index, InProgressCall(x))]
    + CodeEvents(c, a, x)
    + [ToolProgress(InProgress, x, a.index), ToolProgress(Interpreting, x, a.index),
       ToolProgress(Ended, x, a.index), ItemDone(a.index, public)]
  }

  lemma {:induction false} FragmentsAreSilent(c: Context, before: seq<Event>, id: string, fragments: seq<string>,
                                              np: bool)
    requires Trim(id) in CallsAfter(c, before)
    ensures Emission(c, before + Fragments(id, fragments), np) == Emission(c, before, np)
    ensures CallsAfter(c, before + Fragments(id, fragments)) == CallsAfter(c, before)
  {
    hide Trim, CallsAfter, Emission, HadTool, LastCompleted, Touches;
    if fragments == [] {
      assert before + Fragments(id, fragments) == before;
    } else {
      var shorter := before + Fragments(id, Front(fragments));
      FragmentsAreSilent(c, before, id, Front(fragments), np);
      assert before + Fragments(id, fragments) == shorter + [ArgumentsDelta(id, Last(fragments))];
      MemoryGrows(c, shorter, ArgumentsDelta(id, Last(fragments)));
      EmissionGrows(c, shorter, ArgumentsDelta(id, Last(fragments)), np);
    }
  }

  lemma NothingStreamed(c: Context, np: bool)
    ensures CallsAfter(c, []) == map[] && Emission(c, [], np) == []
  {
  }

  /** While it streams, an announced call shows as one added item and at most one pair of code events. */
  lemma AnnouncementEmitted(c: Context, a: Announcement, x: string, np: bool)
    requires WellAnnounced(c.tool, a, x)
    ensures Emission(c, Spell(a), np) == [ItemAdded(a.index, InProgressCall(x))] + CodeEvents(c, a, x)
    ensures CallIndex(CallsAfter(c, Spell(a)), x) == a.index
  {
    hide Trim, CallsAfter, Emission, HadTool, LastCompleted, Touches, Fragments;
    NothingStreamed(c, np);
    var added := ItemAdded(a.index, a.call);
    MemoryGrows(c, [], added);
    EmissionGrows(c, [], added, np);
    assert [] + [added] == [added];
    FragmentsAreSilent(c, [added], a.call.id, a.fragments, np);
    var es := [added] + Fragments(a.call.id, a.fragments);
    if a.arguments.Some? {
      var done := ArgumentsDone(a.call.id, a.arguments.value);
      MemoryGrows(c, es, done);
      EmissionGrows(c, es, done, np);
      es := es + [done];
    }
    MemoryGrows(c, es, ItemDone(a.doneIndex, a.doneCall));
    EmissionGrows(c, es, ItemDone(a.doneIndex, a.doneCall), np);
    assert Spell(a) == es + [ItemDone(a.doneIndex, a.doneCall)];
  }

  // ---- The executed calls of a hop ----

  predicate NonBlankIds(calls: seq<Item>) {
    forall i :: 0 <= i < |calls| ==> calls[i].FunctionCall? && Trim(calls[i].id) != ""
  }

  /** Call q, and no other, has identifier x. */
  predicate OnlyCall(calls: seq<Item>, x: string, q: nat) {
    && q < |calls| && NonBlankIds(calls)
    && forall i :: 0 <= i < |calls| ==> (Trim(calls[i].id) == x <==> i == q)
  }

  predicate NoCallNamed(calls: seq<Item>, x: string) {
    NonBlankIds(calls) && forall i :: 0 <= i < |calls| ==> Trim(calls[i].id) != x
  }

  lemma {:induction false} ExecutedMatchCalls(tool: Tool, ran: nat, items: seq<Item>, i: nat)
    requires i <= |items| && HonoursContract(tool) && RunsUpTo(tool, ran, items, i)
    ensures |ExecutedUpTo(tool, ran, items, i)| == |CallsUpTo(tool, items, i)|
    ensures forall j :: 0 <= j < |CallsUpTo(tool, items, i)| ==>
              && ExecutedUpTo(tool, ran, items, i)[j].ExecutedCall?
              && CallsUpTo(tool, items, i)[j].FunctionCall?
              && (Trim(CallsUpTo(tool, items, i)[j].id) != "" ==>
                    ItemId(ExecutedUpTo(tool, ran, items, i)[j]) == Trim(CallsUpTo(tool, items, i)[j].id))
  {
    hide Trim, ItemId;
    if i > 0 {
      ExecutedMatchCalls(tool, ran, items, i - 1);
    }
  }

  lemma AboutTailFor(calls: StreamCalls, item: Item, x: string)
    ensures About(x, TailFor(calls, item)) == if ItemId(item) == x then TailFor(calls, item) else []
  {
    var es := TailFor(calls, item);
    assert forall i :: 0 <= i < |es| ==> ItemOf(es[i]) == ItemId(item) by {
      hide Trim;
      ItemIdTrimmed(item);
    }
    hide ItemOf, TailFor;
    if ItemId(item) == x {
      AboutAll(x, es);
    } else {
      AboutNone(x, es);
    }
  }

  lemma ItemIdTrimmed(item: Item)
    ensures Trim(ItemId(item)) == ItemId(item)
  {
    hide IsSpace, TextStart, TextEnd;
    match item
    case FunctionCall(id, _, _, _) => TrimTwice(id);
    case ExecutedCall(id, _, _, _, _) => TrimTwice(id);
    case InProgressCall(id) => TrimTwice(id);
    case OtherItem(id, _) => TrimTwice(id);
    case _ =>
      assert Trim("") == "";
  }

  lemma {:induction false} AboutTail(calls: StreamCalls, items: seq<Item>, x: string)
    requires forall i :: 0 <= i < |items| ==> ItemId(items[i]) != x
    ensures About(x, Tail(calls, items)) == []
  {
    hide ItemOf, ItemId, TailFor;
    if items != [] {
      AboutTail(calls, Front(items), x);
      AboutAppend(x, Tail(calls, Front(items)), TailFor(calls, Last(items)));
      AboutTailFor(calls, Last(items), x);
    }
  }

  lemma {:induction false} AboutTailOnce(calls: StreamCalls, items: seq<Item>, x: string, q: nat)
    requires q < |items|
    requires forall i :: 0 <= i < |items| ==> (ItemId(items[i]) == x <==> i == q)
    ensures About(x, Tail(calls, items)) == TailFor(calls, items[q])
  {
    hide ItemOf, ItemId, TailFor;
    AboutAppend(x, Tail(calls, Front(items)), TailFor(calls, Last(items)));
    AboutTailFor(calls, Last(items), x);
    if q == |items| - 1 {
      AboutTail(calls, Front(items), x);
    } else {
      AboutTailOnce(calls, Front(items), x, q);
    }
  }

  // ---- Whole runs ----

  /** Hop k executed its calls and reported them. */
  predicate Reported(c: Context, script: nat -> StreamReply, k: nat) {
    && script(k).StreamReply? && script(k).status < 400
    && Runs(c.tool, Ran(c.tool, StreamHops(script), k), StreamHops(script)(k).output)
  }

  /** Hop k says nothing about item x. */
  predicate Silent(c: Context, script: nat -> StreamReply, k: nat, x: string) {
    && script(k).StreamReply? && About(x, script(k).events) == []
    && NoCallNamed(Calls(c.tool, StreamHops(script)(k).output), x)
  }

  /** Hop k announces item x once, and its q-th call is the one. */
  predicate Speaks(c: Context, script: nat -> StreamReply, k: nat, x: string, a: Announcement, q: nat) {
    && WellAnnounced(c.tool, a, x)
    && script(k).StreamReply? && About(x, script(k).events) == Spell(a)
    && OnlyCall(Calls(c.tool, StreamHops(script)(k).output), x, q)
  }

  lemma SilentHop(c: Context, script: nat -> StreamReply, k: nat, x: string)
    requires x != "" && HonoursContract(c.tool) && Reported(c, script, k) && Silent(c, script, k, x)
    ensures About(x, HopEmission(c, script, k)) == [] && About(x, HopTail(c, script, k)) == []
  {
    var es, output := script(k).events, StreamHops(script)(k).output;
    ProjectionCommutes(c, es, x, PublicOutput(c, StreamHops(script), k) == []);
    ExecutedMatchCalls(c.tool, Ran(c.tool, StreamHops(script), k), output, |output|);
    hide Trim, ItemId, HonoursContract, CallsAfter, StreamHops;
    AboutTail(CallsAfter(c, es), ExecutedBy(c, StreamHops(script), k), x);
  }

  lemma SpeakingHop(c: Context, script: nat -> StreamReply, k: nat, x: string, a: Announcement, q: nat)
    requires HonoursContract(c.tool) && Reported(c, script, k) && Speaks(c, script, k, x, a, q)
    ensures q < |ExecutedBy(c, StreamHops(script), k)|
    ensures About(x, HopEmission(c, script, k)) + About(x, HopTail(c, script, k))
         == ClientStory(c, a, x, ExecutedBy(c, StreamHops(script), k)[q])
    ensures ItemId(ExecutedBy(c, StreamHops(script), k)[q]) == x
  {
    var es, output := script(k).events, StreamHops(script)(k).output;
    var np := PublicOutput(c, StreamHops(script), k) == [];
    var executed := ExecutedBy(c, StreamHops(script), k);
    ProjectionCommutes(c, es, x, np);
    AnnouncementEmitted(c, a, x, np);
    ExecutedMatchCalls(c.tool, Ran(c.tool, StreamHops(script), k), output, |output|);
    hide Trim, ItemId, HonoursContract, CallsAfter, StreamHops, CodeEvents, Spell;
    AboutTailOnce(CallsAfter(c, es), executed, x, q);
    assert CallIndex(CallsAfter(c, es), x) == a.index;
    assert HopTail(c, script, k) == Tail(CallsAfter(c, es), executed);
  }

  /** The first k hops reported their calls, and apart from hop h none of them mentions item x. */
  predicate QuietExcept(c: Context, script: nat -> StreamReply, k: nat, h: nat, x: string) {
    k > 0 ==>
      && QuietExcept(c, script, k - 1, h, x)
      && Reported(c, script, k - 1)
      && (k - 1 != h ==> Silent(c, script, k - 1, x))
  }

  /** The client's story of call q of hop h. */
  function StoryIn(c: Context, script: nat -> StreamReply, h: nat, x: string, a: Announcement, q: nat): seq<Event> {
    var executed := ExecutedBy(c, StreamHops(script), h);
    if q < |executed| then ClientStory(c, a, x, executed[q]) else []
  }

  lemma {:induction false} StorySoFar(c: Context, script: nat -> StreamReply, k: nat, h: nat, x: string,
                                      a: Announcement, q: nat)
    requires x != "" && HonoursContract(c.tool) && QuietExcept(c, script, k, h, x)
    requires Speaks(c, script, h, x, a, q)
    ensures About(x, EventsUpTo(c, script, k)) == if h < k then StoryIn(c, script, h, x, a, q) else []
  {
    if k == 0 {
      return;
    }
    hide HonoursContract, Silent, Speaks, Reported, HopEmission, HopTail, StoryIn, About;
    StorySoFar(c, script, k - 1, h, x, a, q);
    AboutHop(c, script, k - 1, h, x, a, q);
    AboutThree(x, EventsUpTo(c, script, k - 1), HopEmission(c, script, k - 1), HopTail(c, script, k - 1));
  }

  /** What hop k, which reported its calls, tells the client about item x. */
  lemma AboutHop(c: Context, script: nat -> StreamReply, k: nat, h: nat, x: string, a: Announcement, q: nat)
    requires x != "" && HonoursContract(c.tool) && Reported(c, script, k)
    requires Speaks(c, script, h, x, a, q) && (k != h ==> Silent(c, script, k, x))
    ensures About(x, HopEmission(c, script, k)) + About(x, HopTail(c, script, k))
         == if k == h then StoryIn(c, script, h, x, a, q) else []
  {
    hide HonoursContract, Silent, Speaks, Reported, HopEmission, HopTail, ClientStory, ExecutedBy;
    if k == h {
      SpeakingHop(c, script, h, x, a, q);
    } else {
      SilentHop(c, script, k, x);
    }
  }

  predicate SilentExcept(c: Context, script: nat -> StreamReply, k: nat, h: nat, x: string) {
    k > 0 ==> SilentExcept(c, script, k - 1, h, x) && (k - 1 != h ==> Silent(c, script, k - 1, x))
  }

  lemma {:induction false} GoingHopsReport(c: Context, script: nat -> StreamReply, k: nat, h: nat, x: string)
    requires AllGo(StreamGoing(c, script), k) && SilentExcept(c, script, k, h, x)
    ensures QuietExcept(c, script, k, h, x)
  {
    hide Silent, HadTool, Runs, HasUserCall;
    if k > 0 {
      GoingHopsReport(c, script, k - 1, h, x);
      assert StreamGoing(c, script)(k - 1);
    }
  }

  predicate Succeeded(o: StreamOutcome) {
    o.Finished? || o.PassedThrough?
  }

  /** The last hop of a successful run is complete, and reported its calls if it had any. */
  lemma LastHopReported(c: Context, script: nat -> StreamReply, n: nat)
    requires Succeeded(StreamStop(c, script, n))
    ensures script(n).StreamReply? && script(n).status < 400
    ensures HadTool(c, script(n).events) ==> Reported(c, script, n) && StreamStop(c, script, n).Finished?
  {
    hide HadTool, Runs, Accumulated, PublicOutput, LastCompleted;
  }

  lemma AboutLastHop(c: Context, script: nat -> StreamReply, n: nat, h: nat, x: string, a: Announcement, q: nat)
    requires x != "" && HonoursContract(c.tool) && Succeeded(StreamStop(c, script, n))
    requires Speaks(c, script, h, x, a, q) && (n != h ==> Silent(c, script, n, x))
    requires h == n ==> HadTool(c, script(n).events)
    ensures About(x, HopEmission(c, script, n)) + About(x, Closing(c, script, n))
         == if n == h then StoryIn(c, script, h, x, a, q) else []
  {
    LastHopReported(c, script, n);
    if HadTool(c, script(n).events) {
      AboutHop(c, script, n, h, x, a, q);
      hide HonoursContract, Silent, Speaks, Reported, HopEmission, HopTail, StoryIn, StreamStop, HadTool;
      AboutClosing(c, script, n, x);
    } else {
      ProjectionCommutes(c, script(n).events, x, PublicOutput(c, StreamHops(script), n) == []);
      hide HonoursContract, Speaks, Reported, HopTail, StoryIn, StreamStop, HadTool, CallsAfter, PublicOutput;
      AboutClosing(c, script, n, x);
    }
  }

  lemma AboutClosing(c: Context, script: nat -> StreamReply, n: nat, x: string)
    requires x != "" && Succeeded(StreamStop(c, script, n)) && script(n).StreamReply?
    requires HadTool(c, script(n).events) ==> StreamStop(c, script, n).Finished?
    ensures About(x, Closing(c, script, n))
         == if HadTool(c, script(n).events) then About(x, HopTail(c, script, n)) else []
  {
    hide HopTail, HadTool, StreamStop;
    match StreamStop(c, script, n)
    case Finished(response, _) =>
      var body := if HadTool(c, script(n).events) then HopTail(c, script, n) else [];
      AboutAppend(x, body, [Completed(Some(response))]);
      assert About(x, [Completed(Some(response))]) == [] by {
        AboutNone(x, [Completed(Some(response))]);
      }
      assert About(x, []) == [];
    case _ =>
  }

  /** The event grammar: in a successful run, the client's events about an item that the model server
      announced once and well are exactly the story of that call, all with the announced index: added,
      at most one pair of code events, in progress, interpreting, completed, done with the executed item. */
  lemma BuiltinItemStory(c: Context, script: nat -> StreamReply, h: nat, x: string, a: Announcement, q: nat)
    requires x != "" && HonoursContract(c.tool) && Succeeded(StreamResult(c, script))
    requires h <= StreamEnd(c, script) && Speaks(c, script, h, x, a, q)
    requires SilentExcept(c, script, StreamEnd(c, script) + 1, h, x)
    ensures q < |ExecutedBy(c, StreamHops(script), h)|
    ensures About(x, ClientEvents(c, script)) == ClientStory(c, a, x, ExecutedBy(c, StreamHops(script), h)[q])
    ensures ItemId(ExecutedBy(c, StreamHops(script), h)[q]) == x
  {
    hide About, HonoursContract, Speaks, Silent, StreamStop, HopEmission, Closing, EventsUpTo, HadTool, StreamEnd,
         ClientStory, ExecutedBy, ItemId, Reported, AllGo;
    var n := StreamEnd(c, script);
    EndReached(c, script);
    GoingHopsReport(c, script, n, h, x);
    SpeaksMeansTool(c, script, h, x, a, q);
    LastHopReported(c, script, n);
    QuietHopReported(c, script, n, h, x, h);
    SpeakingHop(c, script, h, x, a, q);
    StorySoFar(c, script, n, h, x, a, q);
    AboutLastHop(c, script, n, h, x, a, q);
    AboutThree(x, EventsUpTo(c, script, n), HopEmission(c, script, n), Closing(c, script, n));
  }

  /** A hop whose events about an item announce a built-in call uses the tool. */
  lemma SpeaksMeansTool(c: Context, script: nat -> StreamReply, h: nat, x: string, a: Announcement, q: nat)
    requires Speaks(c, script, h, x, a, q)
    ensures HadTool(c, script(h).events)
  {
    hide Trim, CodeEvents, OnlyCall;
    var es := script(h).events;
    assert Spell(a)[0] == ItemAdded(a.index, a.call);
    var i := AboutIsFrom(x, es, 0);
    ToolOnceTouched(c, es, i);
  }

  lemma {:induction false} AboutIsFrom(x: string, es: seq<Event>, j: nat) returns (i: nat)
    requires j < |About(x, es)|
    ensures i < |es| && es[i] == About(x, es)[j]
  {
    hide ItemOf;
    if j < |About(x, Front(es))| {
      i := AboutIsFrom(x, Front(es), j);
    } else {
      i := |es| - 1;
    }
  }

  lemma {:induction false} ToolOnceTouched(c: Context, es: seq<Event>, i: nat)
    requires i < |es| && es[i].ItemAdded? && IsBuiltinCall(c.tool, es[i].item)
    ensures HadTool(c, es)
  {
    if i < |es| - 1 {
      ToolOnceTouched(c, Front(es), i);
    }
  }

  lemma {:induction false} QuietHopReported(c: Context, script: nat -> StreamReply, k: nat, h: nat, x: string, j: nat)
    requires QuietExcept(c, script, k, h, x)
    ensures j < k ==> Reported(c, script, j)
  {
    hide Reported, Silent;
    if j < k - 1 {
      QuietHopReported(c, script, k - 1, h, x, j);
    }
  }

  // ---- No raw call item reaches the client ----

  /** An item event whose item is a call of the built-in tool. */
  predicate IsRawItem(tool: Tool, e: Event) {
    (e.ItemAdded? || e.ItemDone?) && IsBuiltinCall(tool, e.item)
  }

  predicate NoRawItems(tool: Tool, es: seq<Event>) {
    forall i :: 0 <= i < |es| ==> !IsRawItem(tool, es[i])
  }

  lemma {:induction false} EmissionHasNoRawItems(c: Context, es: seq<Event>, np: bool)
    ensures NoRawItems(c.tool, Emission(c, es, np))
  {
    hide Trim, CallsAfter, HadTool;
    if es != [] {
      EmissionHasNoRawItems(c, Front(es), np);
      var calls, quiet := CallsAfter(c, Front(es)), HadTool(c, Front(es)) || !np;
      assert NoRawItems(c.tool, Rewrite(c, calls, quiet, Last(es)));
    }
  }

  lemma {:induction false} TailHasNoRawItems(tool: Tool, calls: StreamCalls, items: seq<Item>)
    requires forall i :: 0 <= i < |items| ==> items[i].ExecutedCall?
    ensures NoRawItems(tool, Tail(calls, items))
  {
    hide ItemId;
    if items != [] {
      TailHasNoRawItems(tool, calls, Front(items));
      assert NoRawItems(tool, TailFor(calls, Last(items)));
    }
  }

  lemma HopTailHasNoRawItems(c: Context, script: nat -> StreamReply, k: nat)
    requires HonoursContract(c.tool) && Reported(c, script, k)
    ensures NoRawItems(c.tool, HopTail(c, script, k))
  {
    var output := StreamHops(script)(k).output;
    ExecutedMatchCalls(c.tool, Ran(c.tool, StreamHops(script), k), output, |output|);
    hide CallsAfter, HonoursContract, NoRawItems, StreamHops;
    TailHasNoRawItems(c.tool, CallsAfter(c, script(k).events), ExecutedBy(c, StreamHops(script), k));
  }

  lemma {:induction false} EventsHaveNoRawItems(c: Context, script: nat -> StreamReply, k: nat)
    requires HonoursContract(c.tool) && AllGo(StreamGoing(c, script), k)
    ensures NoRawItems(c.tool, EventsUpTo(c, script, k))
  {
    hide HonoursContract, Emission, HopTail, IsRawItem, HadTool, Runs, PublicOutput;
    if k > 0 {
      EventsHaveNoRawItems(c, script, k - 1);
      assert StreamGoing(c, script)(k - 1) == StreamGoesOn(c, script, k - 1);
      HopTailHasNoRawItems(c, script, k - 1);
      EmissionHasNoRawItems(c, script(k - 1).events, PublicOutput(c, StreamHops(script), k - 1) == []);
    }
  }

  /** Whatever the model server sends and whether or not the run succeeds, the client never receives a call
      of the built-in tool as an added or finished item. */
  lemma NoRawItemLeaks(c: Context, script: nat -> StreamReply)
    requires HonoursContract(c.tool)
    ensures NoRawItems(c.tool, ClientEvents(c, script))
  {
    var n := StreamEnd(c, script);
    StopReached(StreamGoing(c, script), 0);
    EventsHaveNoRawItems(c, script, n);
    hide HonoursContract, Emission, Closing, EventsUpTo, NoRawItems, PublicOutput, StreamEnd;
    if n < MAX_TOOL_ITERATIONS {
      if script(n).StreamReply? {
        EmissionHasNoRawItems(c, script(n).events, PublicOutput(c, StreamHops(script), n) == []);
      } else {
        NoRawItemsAppend(c.tool, [], []);
      }
      ClosingHasNoRawItems(c, script, n);
      NoRawItemsAppend(c.tool, EventsUpTo(c, script, n), HopEmission(c, script, n));
      NoRawItemsAppend(c.tool, EventsUpTo(c, script, n) + HopEmission(c, script, n), Closing(c, script, n));
    }
  }

  lemma NoRawItemsAppend(tool: Tool, a: seq<Event>, b: seq<Event>)
    ensures NoRawItems(tool, a) && NoRawItems(tool, b) ==> NoRawItems(tool, a + b)
    ensures NoRawItems(tool, [])
  {
    hide IsRawItem;
  }

  lemma ClosingHasNoRawItems(c: Context, script: nat -> StreamReply, n: nat)
    requires HonoursContract(c.tool)
    ensures NoRawItems(c.tool, Closing(c, script, n))
  {
    if StreamStop(c, script, n).Finished? {
      LastHopReported(c, script, n);
      if HadTool(c, script(n).events) {
        HopTailHasNoRawItems(c, script, n);
      }
    }
    hide HonoursContract, StreamStop, HopTail, HadTool, IsBuiltinCall;
  }

  /** Nor in the final response, if its last hop showed the tool in use or contains no call of it. */
  lemma NoBuiltinCallInFinalResponse(c: Context, script: nat -> StreamReply, p: nat)
    requires HonoursContract(c.tool) && StreamResult(c, script).Finished?
    requires var n := StreamEnd(c, script);
             HadTool(c, script(n).events) || Calls(c.tool, StreamHops(script)(n).output) == []
    requires p < |StreamResult(c, script).response.output|
    ensures !IsBuiltinCall(c.tool, StreamResult(c, script).response.output[p])
  {
    hide HonoursContract, HadTool, Calls, Accumulated, StreamEnd, AllSettled, Ran, Runs, PublicItems, PublicOutput,
         IsBuiltinCall;
    var n, hops := StreamEnd(c, script), StreamHops(script);
    EndReached(c, script);
    StreamHopsSettle(c, script, n);
    SettledMeansRun(c.tool, hops, n);
    LastHopReported(c, script, n);
    if Calls(c.tool, hops(n).output) == [] {
      PublicWithoutCalls(c, hops, n);
    }
    assert AllRun(c.tool, hops, n + 1);
    NoBuiltinCallIsPublic(c, hops, n + 1, p);
  }

  // ---- One completion, last ----

  predicate NoCompletion(es: seq<Event>) {
    forall i :: 0 <= i < |es| ==> !es[i].Completed?
  }

  /** The model server ends a hop with its only completion event. */
  predicate EndsWithCompletion(es: seq<Event>) {
    es != [] && Last(es).Completed? && NoCompletion(Front(es))
  }

  lemma {:induction false} NoCompletionPasses(c: Context, es: seq<Event>, np: bool)
    requires NoCompletion(es)
    ensures NoCompletion(Emission(c, es, np))
  {
    hide Trim, CallsAfter, HadTool;
    if es != [] {
      NoCompletionPasses(c, Front(es), np);
      var calls, quiet := CallsAfter(c, Front(es)), HadTool(c, Front(es)) || !np;
      assert NoCompletion(Rewrite(c, calls, quiet, Last(es)));
    }
  }

  /** A hop's own completion reaches the client only if it is the first hop and used no tool. */
  lemma CompletionPasses(c: Context, es: seq<Event>, np: bool)
    requires EndsWithCompletion(es)
    ensures HadTool(c, es) || !np ==> NoCompletion(Emission(c, es, np))
    ensures !HadTool(c, es) && np ==>
              Emission(c, es, np) == Emission(c, Front(es), np) + [Last(es)] && NoCompletion(Emission(c, Front(es), np))
  {
    NoCompletionPasses(c, Front(es), np);
    hide Trim, CallsAfter;
    assert HadTool(c, es) == HadTool(c, Front(es));
  }

  lemma {:induction false} TailHasNoCompletion(calls: StreamCalls, items: seq<Item>)
    ensures NoCompletion(Tail(calls, items))
  {
    hide ItemId;
    if items != [] {
      TailHasNoCompletion(calls, Front(items));
      assert NoCompletion(TailFor(calls, Last(items)));
    }
  }

  lemma HopTailHasNoCompletion(c: Context, script: nat -> StreamReply, k: nat)
    ensures NoCompletion(HopTail(c, script, k))
  {
    if script(k).StreamReply? {
      TailHasNoCompletion(CallsAfter(c, script(k).events), ExecutedBy(c, StreamHops(script), k));
    }
  }

  lemma {:induction false} EventsHaveNoCompletion(c: Context, script: nat -> StreamReply, k: nat)
    requires AllGo(StreamGoing(c, script), k)
    requires forall j :: 0 <= j < k && script(j).StreamReply? ==> EndsWithCompletion(script(j).events)
    ensures NoCompletion(EventsUpTo(c, script, k))
  {
    hide Emission, HopTail, HadTool, PublicOutput, Runs, EndsWithCompletion;
    if k > 0 {
      EventsHaveNoCompletion(c, script, k - 1);
      assert StreamGoing(c, script)(k - 1) == StreamGoesOn(c, script, k - 1);
      HopTailHasNoCompletion(c, script, k - 1);
      CompletionPasses(c, script(k - 1).events, PublicOutput(c, StreamHops(script), k - 1) == []);
    }
  }

  lemma EndReached(c: Context, script: nat -> StreamReply)
    ensures AllGo(StreamGoing(c, script), StreamEnd(c, script))
  {
    StopReached(StreamGoing(c, script), 0);
  }

  /** In a successful run over hops that end with their completion, the client receives exactly one
      completion, and it is the last event. */
  lemma OneCompletionLast(c: Context, script: nat -> StreamReply)
    requires Succeeded(StreamResult(c, script))
    requires forall j :: 0 <= j <= StreamEnd(c, script) && script(j).StreamReply? ==>
               EndsWithCompletion(script(j).events)
    ensures EndsWithCompletion(ClientEvents(c, script))
  {
    hide StreamStop, HopEmission, Closing, EventsUpTo, StreamEnd, NoCompletion, EndsWithCompletion, AllGo;
    var n := StreamEnd(c, script);
    EndReached(c, script);
    EventsHaveNoCompletion(c, script, n);
    LastHopReported(c, script, n);
    LastHopCompletes(c, script, n);
    EndsAfter(EventsUpTo(c, script, n), HopEmission(c, script, n) + Closing(c, script, n));
    assert ClientEvents(c, script) == EventsUpTo(c, script, n) + (HopEmission(c, script, n) + Closing(c, script, n));
  }

  lemma EndsAfter(a: seq<Event>, b: seq<Event>)
    requires NoCompletion(a) && EndsWithCompletion(b)
    ensures EndsWithCompletion(a + b)
  {
    assert Front(a + b) == a + Front(b);
  }

  lemma LastHopCompletes(c: Context, script: nat -> StreamReply, n: nat)
    requires Succeeded(StreamStop(c, script, n))
    requires script(n).StreamReply? ==> EndsWithCompletion(script(n).events)
    ensures EndsWithCompletion(HopEmission(c, script, n) + Closing(c, script, n))
  {
    LastHopReported(c, script, n);
    var es, np := script(n).events, PublicOutput(c, StreamHops(script), n) == [];
    CompletionPasses(c, es, np);
    HopTailHasNoCompletion(c, script, n);
    hide HadTool, Emission, HopTail, PublicOutput, LastCompleted, Accumulated, Runs, EndsWithCompletion;
    var emission, closing := HopEmission(c, script, n), Closing(c, script, n);
    if StreamStop(c, script, n).Finished? {
      var body := if HadTool(c, es) then HopTail(c, script, n) else [];
      var final := Completed(Some(StreamStop(c, script, n).response));
      assert emission + closing == (emission + body) + [final];
      SingleEnds(final);
      EndsAfter(emission + body, [final]);
    } else {
      assert emission + closing == Emission(c, Front(es), np) + [Last(es)];
      assert Last(es).Completed? by {
        EndsCompleted(es);
      }
      SingleEnds(Last(es));
      EndsAfter(Emission(c, Front(es), np), [Last(es)]);
    }
  }

  lemma SingleEnds(e: Event)
    requires e.Completed?
    ensures EndsWithCompletion([e])
  {
  }

  lemma EndsCompleted(es: seq<Event>)
    requires EndsWithCompletion(es)
    ensures es != [] && Last(es).Completed?
  {
  }

  // ---- One bill per hop ----

  /** The hop ends with its only completion, which carries a response object. */
  predicate CompletesOnce(r: StreamReply) {
    && r.StreamReply? && r.status < 400
    && EndsWithCompletion(r.events) && Last(r.events).response.Some?
  }

  lemma {:induction false} NoCompletionNoReport(es: seq<Event>)
    requires NoCompletion(es)
    ensures ReportedUsages(es) == []
  {
    if es != [] {
      NoCompletionNoReport(Front(es));
    }
  }

  lemma {:induction false} OneReportPerHop(script: nat -> StreamReply, k: nat)
    requires forall j :: 0 <= j < k ==> CompletesOnce(script(j))
    ensures ReportsUpTo(StreamHops(script), k) == k
  {
    hide LastCompleted;
    if k > 0 {
      OneReportPerHop(script, k - 1);
      assert CompletesOnce(script(k - 1));
      NoCompletionNoReport(Front(script(k - 1).events));
    }
  }

  /** Token conservation over a streaming run whose hops end with their only completion: one billing event
      per hop, at most twelve, and the usage reported at the end agrees with them. */
  lemma StreamBilledOncePerHop(c: Context, script: nat -> StreamReply)
    requires c.keyed && !c.perRequestModel && Succeeded(StreamResult(c, script))
    requires forall j :: 0 <= j < HopsUsed(StreamEnd(c, script)) ==> CompletesOnce(script(j))
    requires forall j :: 0 <= j < HopsUsed(StreamEnd(c, script)) ==> AllNonNegative(StreamHop(script(j)).usages)
    ensures var n, reported := HopsUsed(StreamEnd(c, script)), StreamResult(c, script).reported;
            && Balanced(reported, StreamBilled(c, script, n))
            && |StreamBilled(c, script, n)| == n <= MAX_TOOL_ITERATIONS
            && reported.total == TotalsUpTo(StreamHops(script), n)
  {
    hide StreamEnd, Balanced, AllNonNegative, CompletesOnce, TotalsUpTo, StreamBilled;
    StreamReportMatchesBills(c, script);
    OneReportPerHop(script, HopsUsed(StreamEnd(c, script)));
  }

  /** What the model server reports is read from its completions, in order, one report for each that carries a
      response object. */
  lemma ReportsInOrder(es: seq<Event>, e: Event)
    ensures ReportedUsages([]) == []
    ensures ReportedUsages(es + [e])
         == ReportedUsages(es) + if e.Completed? && e.response.Some? then [e.response.value.usage] else []
  {
    assert Front(es + [e]) == es;
    assert ReportedUsages(es) + [] == ReportedUsages(es);
  }

  /** With streaming, the j-th hop of a keyed client leaves exactly the event of its own raw report, under its own
      request id. */
  lemma {:induction false} StreamBillsExactly(c: Context, script: nat -> StreamReply, k: nat)
    requires c.keyed && forall j :: 0 <= j < k ==> CompletesOnce(script(j))
    ensures |StreamBilled(c, script, k)| == k
    ensures forall j :: 0 <= j < k ==>
              && CompletesOnce(script(j))
              && StreamBilled(c, script, k)[j]
                 == EventFor(c, script(j).requestId, Last(script(j).events).response.value.usage, true)
  {
    hide EventFor, BillAll, ReportedUsages;
    if k > 0 {
      StreamBillsExactly(c, script, k - 1);
      var r := script(k - 1);
      assert CompletesOnce(r);
      NoCompletionNoReport(Front(r.events));
      ReportsInOrder(Front(r.events), Last(r.events));
      assert r.events == Front(r.events) + [Last(r.events)];
      BillAllExactly(c, r.requestId, ReportedUsages(r.events));
    }
  }

  /** The response a hop ends with is that of its last completion. */
  lemma {:induction false} LastCompletedExactly(es: seq<Event>, i: nat)
    requires i < |es| && es[i].Completed? && forall j :: i < j < |es| ==> !es[j].Completed?
    ensures LastCompleted(es) == es[i].response
  {
    if i < |es| - 1 {
      LastCompletedExactly(Front(es), i);
    }
  }

  /** And there is none without a completion. */
  lemma {:induction false} NothingCompleted(es: seq<Event>)
    requires NoCompletion(es)
    ensures LastCompleted(es) == None
  {
    if es != [] {
      NothingCompleted(Front(es));
    }
  }
}
