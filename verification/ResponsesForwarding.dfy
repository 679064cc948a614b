/** What a stream passes on untouched: everything the model server says that is neither a completion nor
    about the built-in tool's calls. */
module ResponsesForwarding {
  import opened Text
  import opened ResponsesModel
  import opened ResponsesStream
  import opened ResponsesTranscript
  import opened ResponsesEvents
  import opened ResponsesLeaks

  /** Not a call of the built-in tool, and not what the router puts in the place of a call in `mine`. */
  predicate ForeignItem(tool: Tool, mine: string -> bool, item: Item) {
    if item.FunctionCall? then !tool.isNamed(item.name)
    else if item.InProgressCall? || item.ExecutedCall? then !mine(Trim(item.id))
    else true
  }

  /** Neither a completion nor an event that shows or reports a call of the built-in tool. */
  predicate Foreign(tool: Tool, mine: string -> bool, e: Event) {
    if e.Completed? then false
    else if e.ItemAdded? || e.ItemDone? then ForeignItem(tool, mine, e.item)
    else if e.CodeDelta? || e.CodeDone? || e.ToolProgress? then !mine(Trim(e.itemId))
    else true
  }

  function Only(tool: Tool, mine: string -> bool, es: seq<Event>): seq<Event> {
    if es == [] then []
    else Only(tool, mine, Front(es)) + (if Foreign(tool, mine, Last(es)) then [Last(es)] else [])
  }

  /** The event gives arguments of a call that the hop announced before. */
  predicate OfAnnounced(tool: Tool, before: seq<Event>, e: Event) {
    match e
    case ArgumentsDelta(id, _) => Announced(tool, before, Trim(id))
    case ArgumentsDone(id, _) => Announced(tool, before, Trim(id))
    case _ => false
  }

  /** The events of a hop that are none of the router's business. */
  function Others(tool: Tool, mine: string -> bool, es: seq<Event>): seq<Event> {
    if es == [] then []
    else
      Others(tool, mine, Front(es))
      + (if Foreign(tool, mine, Last(es)) && !OfAnnounced(tool, Front(es), Last(es)) then [Last(es)] else [])
  }

  function OthersUpTo(tool: Tool, mine: string -> bool, script: nat -> StreamReply, k: nat): seq<Event> {
    if k == 0 then []
    else OthersUpTo(tool, mine, script, k - 1) + Others(tool, mine, EventsOf(script(k - 1)))
  }

  /** `mine` has the identifiers under which the first k hops announced calls and executed them. */
  ghost predicate Covers(c: Context, script: nat -> StreamReply, mine: string -> bool, k: nat) {
    k > 0 ==>
      && Covers(c, script, mine, k - 1)
      && CoversAnnounced(c.tool, mine, EventsOf(script(k - 1)))
      && CoversExecuted(mine, ExecutedBy(c, StreamHops(script), k - 1))
  }

  ghost predicate CoversAnnounced(tool: Tool, mine: string -> bool, es: seq<Event>) {
    forall x :: Announced(tool, es, x) ==> mine(x)
  }

  predicate CoversExecuted(mine: string -> bool, items: seq<Item>) {
    forall i :: 0 <= i < |items| ==> mine(ItemId(items[i]))
  }

  lemma {:induction false} OnlyAppend(tool: Tool, mine: string -> bool, a: seq<Event>, b: seq<Event>)
    ensures Only(tool, mine, a + b) == Only(tool, mine, a) + Only(tool, mine, b)
  {
    hide Foreign;
    if b == [] {
      assert a + b == a;
    } else {
      OnlyAppend(tool, mine, a, Front(b));
      assert Front(a + b) == a + Front(b) && Last(a + b) == Last(b);
    }
  }

  lemma {:induction false} OnlyNothing(tool: Tool, mine: string -> bool, es: seq<Event>)
    requires forall i :: 0 <= i < |es| ==> !Foreign(tool, mine, es[i])
    ensures Only(tool, mine, es) == []
  {
    hide Foreign;
    if es != [] {
      OnlyNothing(tool, mine, Front(es));
    }
  }

  lemma OnlyOne(tool: Tool, mine: string -> bool, e: Event)
    ensures Only(tool, mine, [e]) == if Foreign(tool, mine, e) then [e] else []
    ensures Only(tool, mine, []) == []
  {
    hide Foreign;
    assert Front([e]) == [];
  }

  /** One event is passed on as it is, or it is not foreign and neither is what replaces it. */
  lemma RewriteForwards(c: Context, mine: string -> bool, before: seq<Event>, quiet: bool, e: Event)
    requires CoversAnnounced(c.tool, mine, before + [e])
    ensures Only(c.tool, mine, Rewrite(c, CallsAfter(c, before), quiet, e))
         == if Foreign(c.tool, mine, e) && !OfAnnounced(c.tool, before, e) then [e] else []
  {
    hide Trim, Announced, CallsAfter, Only;
    OnlyOne(c.tool, mine, e);
    match e
    case ItemAdded(index, item) =>
      if IsBuiltinCall(c.tool, item) {
        AnnouncedSnoc(c.tool, before, e, Trim(item.id));
        TrimTwice(item.id);
        OnlyOne(c.tool, mine, ItemAdded(index, InProgressCall(Trim(item.id))));
      }
    case ArgumentsDelta(id, _) =>
      RememberedIsAnnounced(c, before, Trim(id));
    case ArgumentsDone(id, arguments) =>
      RememberedIsAnnounced(c, before, Trim(id));
      if Trim(id) in CallsAfter(c, before) {
        AnnouncedSnoc(c.tool, before, e, Trim(id));
        TrimTwice(id);
        OnlyNothing(c.tool, mine, Rewrite(c, CallsAfter(c, before), quiet, e));
      }
    case _ =>
  }

  lemma AnnouncedFront(tool: Tool, mine: string -> bool, es: seq<Event>)
    requires es != [] && CoversAnnounced(tool, mine, es)
    ensures CoversAnnounced(tool, mine, Front(es)) && es == Front(es) + [Last(es)]
  {
    hide Announced;
    forall x | Announced(tool, Front(es), x) ensures mine(x) {
      AnnouncedSnoc(tool, Front(es), Last(es), x);
      assert es == Front(es) + [Last(es)];
    }
  }

  /** While a hop streams, its foreign events are passed on verbatim, in order, each once. */
  lemma {:induction false} EmissionForwards(c: Context, mine: string -> bool, es: seq<Event>, np: bool)
    requires CoversAnnounced(c.tool, mine, es)
    ensures Only(c.tool, mine, Emission(c, es, np)) == Others(c.tool, mine, es)
  {
    hide Foreign, OfAnnounced, Rewrite, HadTool, CallsAfter, CoversAnnounced;
    if es != [] {
      AnnouncedFront(c.tool, mine, es);
      EmissionForwards(c, mine, Front(es), np);
      var quiet := HadTool(c, Front(es)) || !np;
      RewriteForwards(c, mine, Front(es), quiet, Last(es));
      OnlyAppend(c.tool, mine, Emission(c, Front(es), np), Rewrite(c, CallsAfter(c, Front(es)), quiet, Last(es)));
    }
  }

  lemma {:induction false} EmissionOnlyGrows(c: Context, es: seq<Event>, i: nat, np: bool)
    requires i <= |es|
    ensures Emission(c, es[..i], np) <= Emission(c, es, np)
  {
    hide Rewrite, HadTool, CallsAfter;
    if i == |es| {
      assert es[..i] == es;
    } else {
      assert Front(es)[..i] == es[..i];
      EmissionOnlyGrows(c, Front(es), i, np);
    }
  }

  /** Nothing is held back for later: after any number of a hop's events the client has all their foreign ones,
      and what follows only adds to that. */
  lemma ForwardedAtOnce(c: Context, mine: string -> bool, es: seq<Event>, i: nat, np: bool)
    requires i <= |es| && CoversAnnounced(c.tool, mine, es[..i])
    ensures Only(c.tool, mine, Emission(c, es[..i], np)) == Others(c.tool, mine, es[..i])
    ensures Emission(c, es[..i], np) <= Emission(c, es, np)
  {
    hide Emission, Only, Others, CoversAnnounced;
    EmissionForwards(c, mine, es[..i], np);
    EmissionOnlyGrows(c, es, i, np);
  }

  lemma {:induction false} TailIsOurs(tool: Tool, mine: string -> bool, calls: StreamCalls, items: seq<Item>)
    requires CoversExecuted(mine, items) && forall i :: 0 <= i < |items| ==> items[i].ExecutedCall?
    ensures Only(tool, mine, Tail(calls, items)) == []
  {
    hide Trim, Foreign;
    if items != [] {
      TailIsOurs(tool, mine, calls, Front(items));
      TailForIsOurs(tool, mine, calls, Last(items));
      OnlyAppend(tool, mine, Tail(calls, Front(items)), TailFor(calls, Last(items)));
    }
  }

  lemma TailForIsOurs(tool: Tool, mine: string -> bool, calls: StreamCalls, item: Item)
    requires item.ExecutedCall? && mine(ItemId(item))
    ensures Only(tool, mine, TailFor(calls, item)) == []
  {
    hide Trim;
    ItemIdTrimmed(item);
    OnlyNothing(tool, mine, TailFor(calls, item));
  }

  lemma HopTailIsOurs(c: Context, script: nat -> StreamReply, mine: string -> bool, k: nat)
    requires HonoursContract(c.tool) && Reported(c, script, k)
    requires CoversExecuted(mine, ExecutedBy(c, StreamHops(script), k))
    ensures Only(c.tool, mine, HopTail(c, script, k)) == []
  {
    hide CallsAfter, HonoursContract, StreamHops, Only;
    var output := StreamHops(script)(k).output;
    ExecutedMatchCalls(c.tool, Ran(c.tool, StreamHops(script), k), output, |output|);
    TailIsOurs(c.tool, mine, CallsAfter(c, script(k).events), ExecutedBy(c, StreamHops(script), k));
  }

  lemma HopForwards(c: Context, script: nat -> StreamReply, mine: string -> bool, k: nat)
    requires CoversAnnounced(c.tool, mine, EventsOf(script(k)))
    ensures Only(c.tool, mine, HopEmission(c, script, k)) == Others(c.tool, mine, EventsOf(script(k)))
  {
    hide Emission, CoversAnnounced, PublicOutput;
    if script(k).StreamReply? && script(k).status < 400 {
      EmissionForwards(c, mine, script(k).events, PublicOutput(c, StreamHops(script), k) == []);
    }
  }

  lemma {:induction false} GoingHopsForward(c: Context, script: nat -> StreamReply, mine: string -> bool, k: nat)
    requires HonoursContract(c.tool) && AllGo(StreamGoing(c, script), k) && Covers(c, script, mine, k)
    ensures Only(c.tool, mine, EventsUpTo(c, script, k)) == OthersUpTo(c.tool, mine, script, k)
  {
    hide HonoursContract, Others, HopEmission, HopTail, Reported, CoversAnnounced, CoversExecuted, ExecutedBy, Only,
         EventsOf, StreamGoesOn;
    OnlyOne(c.tool, mine, Completed(None));
    if k > 0 {
      GoingHopsForward(c, script, mine, k - 1);
      GoingHopReported(c, script, k, k - 1);
      HopForwards(c, script, mine, k - 1);
      HopTailIsOurs(c, script, mine, k - 1);
      var before, emission := EventsUpTo(c, script, k - 1), HopEmission(c, script, k - 1);
      OnlyAppend(c.tool, mine, before + emission, HopTail(c, script, k - 1));
      OnlyAppend(c.tool, mine, before, emission);
    }
  }

  lemma ClosingIsOurs(c: Context, script: nat -> StreamReply, mine: string -> bool, n: nat)
    requires HonoursContract(c.tool) && CoversExecuted(mine, ExecutedBy(c, StreamHops(script), n))
    ensures Only(c.tool, mine, Closing(c, script, n)) == []
  {
    hide HonoursContract, HadTool, StreamStop, HopTail, CoversExecuted, Only;
    OnlyOne(c.tool, mine, Completed(None));
    if StreamStop(c, script, n).Finished? {
      LastHopReported(c, script, n);
      var final := Completed(Some(StreamStop(c, script, n).response));
      OnlyOne(c.tool, mine, final);
      if HadTool(c, script(n).events) {
        HopTailIsOurs(c, script, mine, n);
        OnlyAppend(c.tool, mine, HopTail(c, script, n), [final]);
      } else {
        assert [] + [final] == [final];
      }
    }
  }

  lemma HopCovered(c: Context, script: nat -> StreamReply, mine: string -> bool, k: nat)
    requires Covers(c, script, mine, HopsUsed(k))
    ensures k <= MAX_TOOL_ITERATIONS ==> Covers(c, script, mine, k)
    ensures k < MAX_TOOL_ITERATIONS ==>
              && CoversAnnounced(c.tool, mine, EventsOf(script(k)))
              && CoversExecuted(mine, ExecutedBy(c, StreamHops(script), k))
              && OthersUpTo(c.tool, mine, script, k + 1)
                 == OthersUpTo(c.tool, mine, script, k) + Others(c.tool, mine, EventsOf(script(k)))
  {
    hide CoversAnnounced, CoversExecuted, EventsOf, ExecutedBy, Others;
  }

  /** Over every run, successful or not: the client's events that are neither completions nor about calls of the
      built-in tool are exactly the model server's, of all hops used, verbatim, in order and each once. Of the
      events that give arguments only those of announced calls are held back. */
  lemma TheRestIsForwarded(c: Context, script: nat -> StreamReply, mine: string -> bool)
    requires HonoursContract(c.tool) && Covers(c, script, mine, HopsUsed(StreamEnd(c, script)))
    ensures Only(c.tool, mine, ClientEvents(c, script))
         == OthersUpTo(c.tool, mine, script, HopsUsed(StreamEnd(c, script)))
  {
    hide HonoursContract, StreamEnd, HopEmission, Closing, EventsUpTo, Others, Only, CoversAnnounced, CoversExecuted,
         OthersUpTo, Covers, StreamStop, ExecutedBy, EventsOf, AllGo;
    var n := StreamEnd(c, script);
    HopCovered(c, script, mine, n);
    EndReached(c, script);
    EndAtMost(c, script);
    GoingHopsForward(c, script, mine, n);
    if n < MAX_TOOL_ITERATIONS {
      HopForwards(c, script, mine, n);
      ClosingIsOurs(c, script, mine, n);
      var before, emission := EventsUpTo(c, script, n), HopEmission(c, script, n);
      OnlyAppend(c.tool, mine, before + emission, Closing(c, script, n));
      OnlyAppend(c.tool, mine, before, emission);
    }
  }

  // ---- What counts as using the tool ----

  /** After the given events, event e shows the tool in use: a built-in call as an item, or arguments of an
      announced call. */
  predicate ShowsUse(tool: Tool, before: seq<Event>, e: Event) {
    if e.ItemAdded? || e.ItemDone? then e.item.FunctionCall? && tool.isNamed(e.item.name)
    else OfAnnounced(tool, before, e)
  }

  lemma TouchesExactly(c: Context, before: seq<Event>, e: Event)
    ensures Touches(c, CallsAfter(c, before), e) <==> ShowsUse(c.tool, before, e)
  {
    hide Trim, Announced, CallsAfter;
    match e
    case ArgumentsDelta(id, _) => RememberedIsAnnounced(c, before, Trim(id));
    case ArgumentsDone(id, _) => RememberedIsAnnounced(c, before, Trim(id));
    case _ =>
  }

  /** A hop counts as using the tool if and only if one of its events shows it in use. */
  lemma {:induction false} UsesToolExactly(c: Context, es: seq<Event>)
    ensures HadTool(c, es) <==> exists i :: 0 <= i < |es| && ShowsUse(c.tool, es[..i], es[i])
  {
    hide ShowsUse, Touches, CallsAfter;
    if es != [] {
      var front, last := Front(es), |es| - 1;
      UsesToolExactly(c, front);
      TouchesExactly(c, front, es[last]);
      assert es[..last] == front;
      forall i | 0 <= i < last ensures front[..i] == es[..i] && front[i] == es[i] {
      }
      if HadTool(c, front) {
        var i :| 0 <= i < |front| && ShowsUse(c.tool, front[..i], front[i]);
        assert ShowsUse(c.tool, es[..i], es[i]);
      }
      if i :| 0 <= i < |es| && ShowsUse(c.tool, es[..i], es[i]) {
        if i < last {
          assert ShowsUse(c.tool, front[..i], front[i]);
        }
      }
    }
  }
}
