/** The tool loop over server-sent events (openaiapi/responses_runner.go, handleResponsesStream). */
module ResponsesStream {
  import opened Text
  import opened Usage
  import opened ResponsesModel
  import opened ResponsesJson

  /** What the router remembers about a built-in call that the current hop announced. */
  datatype StreamCall = StreamCall(index: int, callId: string, code: string)

  type StreamCalls = map<string, StreamCall>

  /** An event as the client receives it, with its sequence number. */
  datatype Numbered = Numbered(sequence: int, event: Event)

  datatype StreamOutcome =
    | StreamError
    | ErrorForwarded(status: int)
    | PassedThrough(reported: Tokens)
    | Finished(response: Response, reported: Tokens)
    | Crashed
    | StreamIterationsExceeded

  // ---- One event ----

  /** The calls remembered after event e. */
  function TrackCalls(c: Context, calls: StreamCalls, e: Event): StreamCalls {
    match e
    case ItemAdded(index, item) =>
      if IsBuiltinCall(c.tool, item) && Trim(item.id) != "" then
        calls[Trim(item.id) := StreamCall(index, Trim(item.callId), "")]
      else calls
    case ArgumentsDone(itemId, arguments) =>
      if Trim(itemId) in calls then
        calls[Trim(itemId) := calls[Trim(itemId)].(code := c.codeIn(Trim(arguments)))]
      else calls
    case _ => calls
  }

  /** Event e shows that this hop uses the built-in tool. */
  predicate Touches(c: Context, calls: StreamCalls, e: Event) {
    match e
    case ItemAdded(_, item) => IsBuiltinCall(c.tool, item)
    case ItemDone(_, item) => IsBuiltinCall(c.tool, item)
    case ArgumentsDelta(itemId, _) => Trim(itemId) in calls
    case ArgumentsDone(itemId, _) => Trim(itemId) in calls
    case _ => false
  }

  /** What the client receives for upstream event e. */
  function Rewrite(c: Context, calls: StreamCalls, quiet: bool, e: Event): seq<Event> {
    match e
    case ItemAdded(index, item) =>
      if !IsBuiltinCall(c.tool, item) then [e]
      else if Trim(item.id) == "" then []
      else [ItemAdded(index, InProgressCall(Trim(item.id)))]
    case ArgumentsDelta(itemId, _) => if Trim(itemId) in calls then [] else [e]
    case ArgumentsDone(itemId, arguments) =>
      if Trim(itemId) !in calls then [e]
      else
        var code := c.codeIn(Trim(arguments));
        if code == "" then []
        else
          var index := calls[Trim(itemId)].index;
          [CodeDelta(Trim(itemId), index, code), CodeDone(Trim(itemId), index, code)]
    case ItemDone(_, item) => if IsBuiltinCall(c.tool, item) then [] else [e]
    case Completed(_) => if quiet then [] else [e]
    case _ => [e]
  }

  // ---- One hop ----

  function Front<T>(s: seq<T>): seq<T>
    requires s != []
  {
    s[..|s| - 1]
  }

  function Last<T>(s: seq<T>): T
    requires s != []
  {
    s[|s| - 1]
  }

  function CallsAfter(c: Context, es: seq<Event>): StreamCalls {
    if es == [] then map[] else TrackCalls(c, CallsAfter(c, Front(es)), Last(es))
  }

  predicate HadTool(c: Context, es: seq<Event>) {
    es != [] && (HadTool(c, Front(es)) || Touches(c, CallsAfter(c, Front(es)), Last(es)))
  }

  /** The events forwarded while a hop streams; `fresh` says that nothing is public yet. */
  function Emission(c: Context, es: seq<Event>, nothingPublic: bool): seq<Event> {
    if es == [] then []
    else
      Emission(c, Front(es), nothingPublic)
      + Rewrite(c, CallsAfter(c, Front(es)), HadTool(c, Front(es)) || !nothingPublic, Last(es))
  }

  function LastCompleted(es: seq<Event>): Option<Response> {
    if es == [] then None
    else if Last(es).Completed? then Last(es).response
    else LastCompleted(Front(es))
  }

  predicate ReportsUsage(e: Event) {
    e.Completed? && e.response.Some?
  }

  function ReportedUsages(es: seq<Event>): seq<Option<Tokens>> {
    if es == [] then []
    else
      ReportedUsages(Front(es))
      + (if ReportsUsage(Last(es)) then [Last(es).response.value.usage] else [])
  }

  function BillAll(c: Context, requestId: string, usages: seq<Option<Tokens>>): seq<BillingEvent> {
    if usages == [] then []
    else BillAll(c, requestId, Front(usages)) + Bill(c, requestId, Last(usages), true)
  }

  function CallIndex(calls: StreamCalls, id: string): int {
    if id in calls then calls[id].index else 0
  }

  /** The events that report one executed call. */
  function TailFor(calls: StreamCalls, item: Item): seq<Event> {
    var id := ItemId(item);
    var index := CallIndex(calls, id);
    [ToolProgress(InProgress, id, index), ToolProgress(Interpreting, id, index),
     ToolProgress(Ended, id, index), ItemDone(index, item)]
  }

  function Tail(calls: StreamCalls, items: seq<Item>): seq<Event> {
    if items == [] then [] else Tail(calls, Front(items)) + TailFor(calls, Last(items))
  }

  /** Each item is reported by four events, in order, under the index at which its call was announced, else zero. */
  lemma {:induction false} TailExactly(calls: StreamCalls, items: seq<Item>, i: nat)
    requires i < |items|
    ensures |Tail(calls, items)| == 4 * |items|
    ensures var id := ItemId(items[i]);
            var index := if id in calls then calls[id].index else 0;
            && Tail(calls, items)[4 * i] == ToolProgress(InProgress, id, index)
            && Tail(calls, items)[4 * i + 1] == ToolProgress(Interpreting, id, index)
            && Tail(calls, items)[4 * i + 2] == ToolProgress(Ended, id, index)
            && Tail(calls, items)[4 * i + 3] == ItemDone(index, items[i])
  {
    hide ItemId;
    if i < |items| - 1 {
      TailExactly(calls, Front(items), i);
    } else if i > 0 {
      TailExactly(calls, Front(items), i - 1);
    }
  }

  function StreamHop(reply: StreamReply): Hop {
    if reply.StreamReply? && reply.status < 400 then
      var completed := LastCompleted(reply.events);
      Hop(if completed.Some? then completed.value.output else [], ReportedUsages(reply.events))
    else
      Hop([], [])
  }

  // ---- Whole runs ----

  function StreamHops(script: nat -> StreamReply): nat -> Hop {
    (k: nat) => StreamHop(script(k))
  }

  predicate StreamGoesOn(c: Context, script: nat -> StreamReply, k: nat) {
    var r, hops := script(k), StreamHops(script);
    && r.StreamReply? && r.status < 400 && r.intact
    && HadTool(c, r.events)
    && Runs(c.tool, Ran(c.tool, hops, k), hops(k).output)
    && !HasUserCall(c.tool, hops(k).output)
  }

  function StreamGoing(c: Context, script: nat -> StreamReply): nat -> bool {
    (k: nat) => StreamGoesOn(c, script, k)
  }

  /** The hop at which the run ends. */
  function StreamEnd(c: Context, script: nat -> StreamReply): nat {
    FirstStop(StreamGoing(c, script), 0)
  }

  function ExecutedBy(c: Context, hops: nat -> Hop, k: nat): seq<Item> {
    ExecutedItems(c.tool, Ran(c.tool, hops, k), hops(k).output)
  }

  /** What hop k forwards while it streams. */
  function HopEmission(c: Context, script: nat -> StreamReply, k: nat): seq<Event> {
    var r := script(k);
    if r.StreamReply? && r.status < 400 then
      Emission(c, r.events, PublicOutput(c, StreamHops(script), k) == [])
    else []
  }

  /** What hop k reports after executing its calls. */
  function HopTail(c: Context, script: nat -> StreamReply, k: nat): seq<Event> {
    var r := script(k);
    if r.StreamReply? then Tail(CallsAfter(c, r.events), ExecutedBy(c, StreamHops(script), k)) else []
  }

  /** The client's events of the first k hops, when all of them go on. */
  function EventsUpTo(c: Context, script: nat -> StreamReply, k: nat): seq<Event> {
    if k == 0 then []
    else EventsUpTo(c, script, k - 1) + HopEmission(c, script, k - 1) + HopTail(c, script, k - 1)
  }

  /** What the client receives after the emission of a hop n that ends the run. */
  function Closing(c: Context, script: nat -> StreamReply, n: nat): seq<Event> {
    match StreamStop(c, script, n)
    case Finished(response, _) =>
      (if HadTool(c, script(n).events) then HopTail(c, script, n) else []) + [Completed(Some(response))]
    case _ => []
  }

  /** What the client gets when hop n is the last one. */
  function StreamStop(c: Context, script: nat -> StreamReply, n: nat): (o: StreamOutcome)
    ensures o.Finished? ==> script(n).StreamReply?
  {
    var r, hops := script(n), StreamHops(script);
    if r.NoStreamReply? then StreamError
    else if r.status >= 400 then ErrorForwarded(r.status)
    else if !r.intact then StreamError
    else
      var usage := Accumulated(hops, n + 1);
      var completed := LastCompleted(r.events);
      if !HadTool(c, r.events) then
        if PublicOutput(c, hops, n) == [] then PassedThrough(usage)
        else if completed.None? then Crashed
        else
          Finished(completed.value.(output := PublicOutput(c, hops, n) + completed.value.output,
                                    usage := Some(usage)), usage)
      else if !Runs(c.tool, Ran(c.tool, hops, n), hops(n).output) || completed.None? then StreamError
      else
        Finished(completed.value.(output := PublicOutput(c, hops, n + 1), usage := Some(usage)), usage)
  }

  function StreamResult(c: Context, script: nat -> StreamReply): StreamOutcome {
    var n := StreamEnd(c, script);
    if n < MAX_TOOL_ITERATIONS then StreamStop(c, script, n) else StreamIterationsExceeded
  }

  /** Everything the client receives in one run. */
  function ClientEvents(c: Context, script: nat -> StreamReply): seq<Event> {
    var n := StreamEnd(c, script);
    if n < MAX_TOOL_ITERATIONS then EventsUpTo(c, script, n) + HopEmission(c, script, n) + Closing(c, script, n)
    else EventsUpTo(c, script, n)
  }

  function StreamBilled(c: Context, script: nat -> StreamReply, k: nat): seq<BillingEvent> {
    if k == 0 then []
    else
      var r := script(k - 1);
      StreamBilled(c, script, k - 1)
      + (if r.StreamReply? && r.status < 400 then BillAll(c, r.requestId, ReportedUsages(r.events)) else [])
  }

  function NumberAll(es: seq<Event>): seq<Numbered> {
    seq(|es|, i requires 0 <= i < |es| => Numbered(i + 1, es[i]))
  }

  // ---- The handler ----

  /** Sequence numbers count from one, and numbering changes nothing else. */
  lemma NumberedExactly(es: seq<Event>, i: nat)
    requires i < |es|
    ensures |NumberAll(es)| == |es| && NumberAll(es)[i].sequence == i + 1 && NumberAll(es)[i].event == es[i]
  {
  }

  /** The client's side of the connection: every event sent gets the next sequence number. */
  class EventWriter {
    var sequence: int
    var sent: seq<Numbered>
    ghost var events: seq<Event>

    ghost predicate Valid()
      reads this
    {
      sequence == |events| + 1 && sent == NumberAll(events)
    }

    constructor ()
      ensures Valid() && events == []
    {
      sequence, sent, events := 1, [], [];
    }

    method Emit(e: Event)
      requires Valid()
      modifies this
      ensures Valid() && events == old(events) + [e]
    {
      sent := sent + [Numbered(sequence, e)];
      sequence := sequence + 1;
      events := events + [e];
    }
  }

  lemma EmissionGrows(c: Context, es: seq<Event>, e: Event, nothingPublic: bool)
    ensures Emission(c, es + [e], nothingPublic)
         == Emission(c, es, nothingPublic) + Rewrite(c, CallsAfter(c, es), HadTool(c, es) || !nothingPublic, e)
  {
    assert Front(es + [e]) == es;
  }

  /** How one more event changes what a hop remembers. */
  lemma MemoryGrows(c: Context, es: seq<Event>, e: Event)
    ensures CallsAfter(c, es + [e]) == TrackCalls(c, CallsAfter(c, es), e)
    ensures HadTool(c, es + [e]) == (HadTool(c, es) || Touches(c, CallsAfter(c, es), e))
    ensures LastCompleted(es + [e]) == if e.Completed? then e.response else LastCompleted(es)
  {
    assert Front(es + [e]) == es;
  }

  /** How one more event changes what a hop reports and bills. */
  lemma UsagesGrow(c: Context, requestId: string, es: seq<Event>, e: Event, acc: Tokens)
    ensures var before, after := ReportedUsages(es), ReportedUsages(es + [e]);
            if ReportsUsage(e) then
              && AccumulateAll(acc, after) == Accumulate(AccumulateAll(acc, before), e.response.value.usage)
              && BillAll(c, requestId, after)
                 == BillAll(c, requestId, before) + Bill(c, requestId, e.response.value.usage, true)
            else after == before
  {
    assert Front(es + [e]) == es;
    var before, after := ReportedUsages(es), ReportedUsages(es + [e]);
    if ReportsUsage(e) {
      assert after == before + [e.response.value.usage];
      assert Front(after) == before;
    }
  }

  /** The callback for the events of one hop, with the variables it captures. */
  class HopReader {
    const c: Context
    const requestId: string
    const nothingPublic: bool
    const usage: UsageAccumulator
    const invoker: UpstreamInvoker<StreamReply>
    const w: EventWriter
    var completed: Option<Response>
    var hadTool: bool
    var calls: StreamCalls
    ghost var seen: seq<Event>
    ghost const usageBefore: Tokens
    ghost const billedBefore: seq<BillingEvent>
    ghost const eventsBefore: seq<Event>

    /** Everything is as the events seen so far make it. */
    ghost predicate Valid()
      reads this, usage, invoker, w
    {
      && completed == LastCompleted(seen)
      && hadTool == HadTool(c, seen)
      && calls == CallsAfter(c, seen)
      && invoker.context == c && w.Valid()
      && w.events == eventsBefore + Emission(c, seen, nothingPublic)
      && usage.ToUsage() == AccumulateAll(usageBefore, ReportedUsages(seen))
      && invoker.billed == billedBefore + BillAll(c, requestId, ReportedUsages(seen))
    }

    constructor (c: Context, requestId: string, nothingPublic: bool, usage: UsageAccumulator,
                 invoker: UpstreamInvoker<StreamReply>, w: EventWriter)
      requires invoker.context == c && w.Valid()
      ensures Valid() && seen == []
      ensures this.c == c && this.requestId == requestId && this.nothingPublic == nothingPublic
      ensures this.usage == usage && this.invoker == invoker && this.w == w
      ensures usageBefore == usage.ToUsage() && billedBefore == invoker.billed && eventsBefore == w.events
    {
      this.c, this.requestId, this.nothingPublic := c, requestId, nothingPublic;
      this.usage, this.invoker, this.w := usage, invoker, w;
      completed, hadTool, calls, seen := None, false, map[], [];
      usageBefore, billedBefore, eventsBefore := usage.ToUsage(), invoker.billed, w.events;
    }

    method OnEvent(e: Event)
      requires Valid()
      modifies this, usage, invoker`billed, w
      ensures Valid() && seen == old(seen) + [e]
    {
      hide LastCompleted, HadTool, CallsAfter, Emission, ReportedUsages, AccumulateAll, Accumulate, BillAll, Bill,
           NumberAll, Trim;
      MemoryGrows(c, seen, e);
      EmissionGrows(c, seen, e, nothingPublic);
      UsagesGrow(c, requestId, seen, e, usageBefore);
      seen := seen + [e];
      var toolsOwn := Touches(c, calls, e);
      hadTool := hadTool || toolsOwn;
      if e.Completed? {
        completed := e.response;
        if e.response.Some? {
          usage.Add(e.response.value.usage);
          invoker.RecordUsage(requestId, e.response.value.usage, true);
        }
        if hadTool || !nothingPublic {
          return;
        }
      } else if toolsOwn {
        OnToolEvent(e);
        return;
      }
      w.Emit(e);
    }

    /** The events of the built-in calls, which the client sees rewritten or not at all. */
    method OnToolEvent(e: Event)
      requires Touches(c, calls, e) && w.Valid()
      modifies this`calls, w
      ensures w.Valid()
      ensures calls == TrackCalls(c, old(calls), e)
      ensures forall quiet :: w.events == old(w.events) + Rewrite(c, old(calls), quiet, e)
    {
      hide NumberAll, IsSpace, Trim;
      match e {
        case ItemAdded(index, item) =>
          var itemId := Trim(item.id);
          if itemId == "" {
            return;
          }
          calls := calls[itemId := StreamCall(index, Trim(item.callId), "")];
          w.Emit(ItemAdded(index, InProgressCall(itemId)));
        case ArgumentsDone(rawId, arguments) =>
          var itemId := Trim(rawId);
          var call := calls[itemId].(code := c.codeIn(Trim(arguments)));
          calls := calls[itemId := call];
          if call.code != "" {
            w.Emit(CodeDelta(itemId, call.index, call.code));
            w.Emit(CodeDone(itemId, call.index, call.code));
          }
        case _ =>
      }
    }
  }

  lemma AppendOne<T>(es: seq<T>, i: nat)
    requires i < |es|
    ensures es[..i + 1] == es[..i] + [es[i]]
    ensures Front(es[..i + 1]) == es[..i] && Last(es[..i + 1]) == es[i]
  {
  }

  /** Streams one hop to the client, event by event. */
  method ReadHop(c: Context, reply: StreamReply, nothingPublic: bool, usage: UsageAccumulator,
                 invoker: UpstreamInvoker<StreamReply>, w: EventWriter)
    returns (completed: Option<Response>, hadTool: bool, calls: StreamCalls)
    requires reply.StreamReply? && w.Valid() && invoker.context == c
    modifies usage, invoker`billed, w
    ensures w.Valid()
    ensures completed == LastCompleted(reply.events)
    ensures hadTool == HadTool(c, reply.events)
    ensures calls == CallsAfter(c, reply.events)
    ensures w.events == old(w.events) + Emission(c, reply.events, nothingPublic)
    ensures usage.ToUsage() == AccumulateAll(old(usage.ToUsage()), ReportedUsages(reply.events))
    ensures invoker.billed == old(invoker.billed) + BillAll(c, reply.requestId, ReportedUsages(reply.events))
  {
    hide Emission, CallsAfter, HadTool, LastCompleted, NumberAll;
    var hop := new HopReader(c, reply.requestId, nothingPublic, usage, invoker, w);
    for i := 0 to |reply.events|
      invariant fresh(hop) && hop.Valid()
      invariant hop.seen == reply.events[..i]
    {
      hop.OnEvent(reply.events[i]);
      AppendOne(reply.events, i);
    }
    assert hop.seen == reply.events;
    completed, hadTool, calls := hop.completed, hop.hadTool, hop.calls;
  }

  lemma TailStart(calls: StreamCalls)
    ensures Tail(calls, []) == []
  {
  }

  lemma TailStep(calls: StreamCalls, items: seq<Item>, i: nat)
    requires i < |items|
    ensures Tail(calls, items[..i + 1]) == Tail(calls, items[..i]) + TailFor(calls, items[i])
  {
    hide TailFor;
    AppendOne(items, i);
  }

  /** Reports the executed calls of a hop. */
  method ReportCalls(calls: StreamCalls, items: seq<Item>, w: EventWriter)
    requires w.Valid()
    modifies w
    ensures w.Valid() && w.events == old(w.events) + Tail(calls, items)
  {
    hide Tail, ItemId, NumberAll;
    TailStart(calls);
    for i := 0 to |items|
      invariant w.Valid() && w.events == old(w.events) + Tail(calls, items[..i])
    {
      TailStep(calls, items, i);
      var itemId := ItemId(items[i]);
      var index := if itemId in calls then calls[itemId].index else 0;
      w.Emit(ToolProgress(InProgress, itemId, index));
      w.Emit(ToolProgress(Interpreting, itemId, index));
      w.Emit(ToolProgress(Ended, itemId, index));
      w.Emit(ItemDone(index, items[i]));
      assert w.events == old(w.events) + Tail(calls, items[..i]) + TailFor(calls, items[i]);
    }
    assert items[..|items|] == items;
  }

  /** Decides what a hop that was streamed leads to, and reports it to the client. */
  method SettleStream(c: Context, reply: StreamReply, completed: Option<Response>, hadTool: bool, calls: StreamCalls,
                      executions: nat, publicSoFar: seq<Item>, usage: Tokens, w: EventWriter,
                      ghost script: nat -> StreamReply, ghost k: nat)
    returns (stop: Option<StreamOutcome>, publicOutput: seq<Item>, replayItems: seq<Item>)
    requires reply == script(k) && reply.StreamReply? && reply.status < 400 && w.Valid()
    requires completed == LastCompleted(reply.events)
    requires hadTool == HadTool(c, reply.events)
    requires calls == CallsAfter(c, reply.events)
    requires executions == Ran(c.tool, StreamHops(script), k)
    requires publicSoFar == PublicOutput(c, StreamHops(script), k)
    requires usage == Accumulated(StreamHops(script), k + 1)
    modifies w
    ensures w.Valid()
    ensures stop.None? <==> StreamGoesOn(c, script, k)
    ensures stop.Some? ==>
              stop.value == StreamStop(c, script, k) && w.events == old(w.events) + Closing(c, script, k)
    ensures stop.None? ==>
              && w.events == old(w.events) + HopTail(c, script, k)
              && publicOutput == PublicOutput(c, StreamHops(script), k + 1)
              && replayItems == ReplayItems(c.tool, executions, StreamHops(script)(k).output)
  {
    ghost var hops := StreamHops(script);
    assert hops(k) == StreamHop(reply);
    publicOutput, replayItems := publicSoFar, [];
    if !reply.intact {
      return Some(StreamError), publicOutput, [];
    }
    if !hadTool {
      if publicSoFar == [] {
        return Some(PassedThrough(usage)), publicOutput, [];
      }
      if completed.None? {
        // The handler writes into the missing response object.
        return Some(Crashed), publicOutput, [];
      }
      var response := completed.value.(output := publicSoFar + completed.value.output, usage := Some(usage));
      w.Emit(Completed(Some(response)));
      return Some(Finished(response, usage)), publicOutput, [];
    }
    var outputItems := if completed.Some? then completed.value.output else [];
    var processed := ProcessOutput(c.tool, executions, outputItems);
    if processed.None? {
      return Some(StreamError), publicOutput, [];
    }
    publicOutput := publicSoFar + processed.value.publicItems;
    assert publicOutput == PublicOutput(c, hops, k + 1);
    ReportCalls(calls, processed.value.executedPublicItems, w);
    if processed.value.mixedWithUserTools {
      var response := completed.value.(output := publicOutput, usage := Some(usage));
      w.Emit(Completed(Some(response)));
      return Some(Finished(response, usage)), publicOutput, [];
    }
    return None, publicOutput, processed.value.replayItems;
  }

  /** One round trip upstream, streamed to the client while it lasts. */
  method StreamOnce(c: Context, invoker: UpstreamInvoker<StreamReply>, usage: UsageAccumulator, w: EventWriter,
                    input: seq<Item>, publicSoFar: seq<Item>, ghost k: nat)
    returns (reply: StreamReply, completed: Option<Response>, hadTool: bool, calls: StreamCalls)
    requires invoker.context == c && w.Valid()
    requires invoker.sent == Requests(c, StreamHops(invoker.script), k)
    requires invoker.billed == StreamBilled(c, invoker.script, k)
    requires input == Transcript(c, StreamHops(invoker.script), k)
    requires publicSoFar == PublicOutput(c, StreamHops(invoker.script), k)
    requires usage.ToUsage() == Accumulated(StreamHops(invoker.script), k)
    modifies invoker, usage, w
    ensures w.Valid()
    ensures reply == invoker.script(k)
    ensures invoker.sent == Requests(c, StreamHops(invoker.script), k + 1)
    ensures invoker.billed == StreamBilled(c, invoker.script, k + 1)
    ensures usage.ToUsage() == Accumulated(StreamHops(invoker.script), k + 1)
    ensures w.events == old(w.events) + HopEmission(c, invoker.script, k)
    ensures reply.StreamReply? && reply.status < 400 ==>
              && completed == LastCompleted(reply.events)
              && hadTool == HadTool(c, reply.events)
              && calls == CallsAfter(c, reply.events)
  {
    hide Emission, HadTool, CallsAfter, LastCompleted, ReportedUsages, NumberAll, Requests, Transcript, PublicOutput;
    RequestsGrow(c, StreamHops(invoker.script), k);
    reply := invoker.Do(RequestBody(input, c.rest));
    completed, hadTool, calls := None, false, map[];
    if reply.StreamReply? && reply.status < 400 {
      completed, hadTool, calls := ReadHop(c, reply, publicSoFar == [], usage, invoker, w);
    }
  }

  lemma EventsAfterHop(c: Context, script: nat -> StreamReply, k: nat)
    ensures EventsUpTo(c, script, k + 1) == EventsUpTo(c, script, k) + HopEmission(c, script, k) + HopTail(c, script, k)
  {
    hide HopEmission, HopTail;
  }

  /** The variables of the streaming loop. */
  class StreamLoop {
    const c: Context
    const invoker: UpstreamInvoker<StreamReply>
    const w: EventWriter
    const usage: UsageAccumulator
    var internalInput: seq<Item>
    var publicOutput: seq<Item>
    var executions: nat

    /** The state in which request k is sent. */
    ghost predicate At(k: nat)
      reads this, invoker, w, usage
    {
      var hops := StreamHops(invoker.script);
      && invoker.context == c && w.Valid()
      && executions == Ran(c.tool, hops, k)
      && internalInput == Transcript(c, hops, k)
      && publicOutput == PublicOutput(c, hops, k)
      && usage.ToUsage() == Accumulated(hops, k)
      && invoker.sent == Requests(c, hops, k)
      && invoker.billed == StreamBilled(c, invoker.script, k)
      && w.events == EventsUpTo(c, invoker.script, k)
    }

    /** What is left behind when hop k ends the run. */
    ghost predicate EndedAt(k: nat)
      reads invoker, w
    {
      && w.Valid()
      && invoker.sent == Requests(c, StreamHops(invoker.script), k + 1)
      && invoker.billed == StreamBilled(c, invoker.script, k + 1)
      && w.events == EventsUpTo(c, invoker.script, k) + HopEmission(c, invoker.script, k)
                     + Closing(c, invoker.script, k)
    }

    constructor (c: Context, invoker: UpstreamInvoker<StreamReply>, w: EventWriter)
      requires invoker.context == c && invoker.sent == [] && invoker.billed == []
      requires w.Valid() && w.events == []
      ensures this.c == c && this.invoker == invoker && this.w == w && fresh(usage) && At(0)
    {
      var u := new UsageAccumulator();
      this.c, this.invoker, this.w, this.usage := c, invoker, w, u;
      internalInput, publicOutput, executions := EnsureInputItems(c.input), [], 0;
    }

    method Iterate(ghost k: nat) returns (stop: Option<StreamOutcome>)
      requires At(k)
      modifies this, invoker, w, usage
      ensures stop.None? <==> StreamGoesOn(c, invoker.script, k)
      ensures stop.None? ==> At(k + 1)
      ensures stop.Some? ==> stop.value == StreamStop(c, invoker.script, k) && EndedAt(k)
    {
      hide NumberAll, Requests, StreamBilled, HopEmission, HopTail, HadTool, LastCompleted, CallsAfter, Runs,
           Transcript, Ran, PublicOutput, Accumulated, Calls, ReplayItems, EventsUpTo;
      AfterHop(c, StreamHops(invoker.script), k);
      EventsAfterHop(c, invoker.script, k);
      var reply, completed, hadTool, calls := StreamOnce(c, invoker, usage, w, internalInput, publicOutput, k);
      if reply.NoStreamReply? {
        return Some(StreamError);
      }
      if reply.status >= 400 {
        return Some(ErrorForwarded(reply.status));
      }
      var newPublic, replayItems;
      stop, newPublic, replayItems :=
        SettleStream(c, reply, completed, hadTool, calls, executions, publicOutput, usage.ToUsage(), w,
                     invoker.script, k);
      if stop.None? {
        var outputItems := if completed.Some? then completed.value.output else [];
        assert StreamHops(invoker.script)(k).output == outputItems;
        publicOutput := newPublic;
        executions := executions + |Calls(c.tool, outputItems)|;
        internalInput := internalInput + outputItems;
        internalInput := internalInput + replayItems;
      }
    }
  }

  /** The streaming loop: what it sends upstream, bills and emits are those of the first n hops, where
      hop n is the first that does not go on. */
  method HandleResponsesStream(c: Context, invoker: UpstreamInvoker<StreamReply>, w: EventWriter)
    returns (outcome: StreamOutcome)
    requires invoker.context == c && invoker.sent == [] && invoker.billed == []
    requires w.Valid() && w.events == []
    modifies invoker, w
    ensures outcome == StreamResult(c, invoker.script)
    ensures invoker.sent == Requests(c, StreamHops(invoker.script), HopsUsed(StreamEnd(c, invoker.script)))
    ensures invoker.billed == StreamBilled(c, invoker.script, HopsUsed(StreamEnd(c, invoker.script)))
    ensures w.sent == NumberAll(ClientEvents(c, invoker.script))
  {
    hide StreamStop, StreamGoesOn, HopEmission, HopTail, Closing, StreamHops, Requests, StreamBilled, EventsUpTo,
         NumberAll;
    var loop := new StreamLoop(c, invoker, w);
    for k := 0 to MAX_TOOL_ITERATIONS
      invariant fresh(loop) && fresh(loop.usage) && loop.c == c && loop.invoker == invoker && loop.w == w
      invariant loop.At(k)
      invariant AllGo(StreamGoing(c, invoker.script), k)
    {
      var stop := loop.Iterate(k);
      if stop.Some? {
        StopsAt(StreamGoing(c, invoker.script), k);
        return stop.value;
      }
    }
    StopsAt(StreamGoing(c, invoker.script), MAX_TOOL_ITERATIONS);
    outcome := StreamIterationsExceeded;
  }
}
