/** The vocabulary of the Responses tool loop (openaiapi/responses_runner.go): items, events, replies
    of the model server, and what the router does with one item or one event. */
module ResponsesModel {
  import opened Text
  import opened Usage

  const MAX_TOOL_ITERATIONS: nat := 12

  /** An element of a response's `output` or of a request's `input`. Identifiers are as received, untrimmed. */
  datatype Item =
    | FunctionCall(id: string, callId: string, name: string, arguments: string)
    | ExecutedCall(id: string, code: string, containerId: string, status: string, outputs: Option<string>)
    | InProgressCall(id: string)
    | CallOutput(callId: string, output: string)
    | UserMessage(content: string)
    | OtherItem(id: string, json: string)

  datatype Response = Response(output: seq<Item>, usage: Option<Tokens>, rest: string)

  datatype ToolState = InProgress | Interpreting | Ended

  /** A server-sent event, from the model server or to the client. */
  datatype Event =
    | ItemAdded(index: int, item: Item)
    | ArgumentsDelta(itemId: string, delta: string)
    | ArgumentsDone(itemId: string, arguments: string)
    | ItemDone(index: int, item: Item)
    | Completed(response: Option<Response>)
    | CodeDelta(itemId: string, index: int, code: string)
    | CodeDone(itemId: string, index: int, code: string)
    | ToolProgress(state: ToolState, itemId: string, index: int)
    | OtherEvent(itemId: string, json: string)

  /** What ExecutableTool.Execute returns: an error, or a result whose two items may be missing. */
  datatype Execution = ExecError | Executed(public: Option<Item>, replay: Option<Item>)

  /** The built-in tool that is active for a request: whether a function name is its own, and what its
      n-th execution gives. That may depend on everything that ran before, hence the number. */
  datatype Tool = Tool(isNamed: string -> bool, execute: (nat, Item) -> Execution)

  datatype RequestBody = RequestBody(input: seq<Item>, rest: string)

  /** The client's `input` field. */
  datatype ClientInput = NoInput | TextInput(text: string) | ItemsInput(items: seq<Item>) | SingleInput(item: Item)

  function EnsureInputItems(input: ClientInput): seq<Item> {
    match input
    case NoInput => []
    case TextInput(text) => [UserMessage(text)]
    case ItemsInput(items) => items
    case SingleInput(item) => [item]
  }

  /** The answer to one upstream request, without streaming. The body is None when it is not a JSON
      object, and then `isNull` says whether it is the JSON literal null; `typed` says whether the body
      decodes into the client library's Response type. */
  datatype JsonReply =
    | NoJsonReply
    | UnreadableReply
    | JsonReply(status: int, requestId: string, body: Option<Response>, isNull: bool, typed: bool, raw: string)

  /** The answer to one upstream request, as a stream. It is intact when it was read and decoded to its end. */
  datatype StreamReply =
    | NoStreamReply
    | StreamReply(status: int, requestId: string, events: seq<Event>, intact: bool)

  datatype BillingEvent = BillingEvent(prompt: int, completion: int, total: int, requestId: string, streaming: bool)

  /** Everything that stays fixed while one client request is served. */
  datatype Context = Context(
    tool: Tool,
    codeIn: string -> string,   // the trimmed `code` field of a call's arguments, or ""
    input: ClientInput,
    rest: string,               // the other fields of the prepared request body
    keyed: bool,                // the request has an API key and there is a collector
    perRequestModel: bool)      // the model is the one billed per request, not per token

  // ---- Output items ----

  predicate IsFunctionCall(item: Item) {
    item.FunctionCall?
  }

  predicate IsBuiltinCall(tool: Tool, item: Item) {
    item.FunctionCall? && tool.isNamed(item.name)
  }

  predicate IsUserCall(tool: Tool, item: Item) {
    item.FunctionCall? && !IsBuiltinCall(tool, item)
  }

  /** A call to one of the client's own tools is among the first i items. */
  predicate UserCallUpTo(tool: Tool, items: seq<Item>, i: nat)
    requires i <= |items|
  {
    i > 0 && (UserCallUpTo(tool, items, i - 1) || IsUserCall(tool, items[i - 1]))
  }

  predicate HasUserCall(tool: Tool, items: seq<Item>) {
    UserCallUpTo(tool, items, |items|)
  }

  function ItemId(item: Item): string {
    match item
    case FunctionCall(id, _, _, _) => Trim(id)
    case ExecutedCall(id, _, _, _, _) => Trim(id)
    case InProgressCall(id) => Trim(id)
    case OtherItem(id, _) => Trim(id)
    case _ => ""
  }

  predicate IsComplete(result: Execution) {
    result.Executed? && result.public.Some? && result.replay.Some?
  }

  /** The built-in calls among the first i items. */
  function CallsUpTo(tool: Tool, items: seq<Item>, i: nat): seq<Item>
    requires i <= |items|
  {
    if i == 0 then []
    else CallsUpTo(tool, items, i - 1) + (if IsBuiltinCall(tool, items[i - 1]) then [items[i - 1]] else [])
  }

  function Calls(tool: Tool, items: seq<Item>): seq<Item> {
    CallsUpTo(tool, items, |items|)
  }

  /** The execution of items[j], when `ran` calls were executed by earlier hops. */
  function ExecutionAt(tool: Tool, ran: nat, items: seq<Item>, j: nat): Execution
    requires j < |items|
  {
    tool.execute(ran + |CallsUpTo(tool, items, j)|, items[j])
  }

  /** Every built-in call among the first i items executes with a complete result. */
  predicate RunsUpTo(tool: Tool, ran: nat, items: seq<Item>, i: nat)
    requires i <= |items|
  {
    forall j :: 0 <= j < i && IsBuiltinCall(tool, items[j]) ==> IsComplete(ExecutionAt(tool, ran, items, j))
  }

  predicate Runs(tool: Tool, ran: nat, items: seq<Item>) {
    RunsUpTo(tool, ran, items, |items|)
  }

  /** What the client sees for items[j]: the item itself, or the executed call in its place. */
  function PublicAt(tool: Tool, ran: nat, items: seq<Item>, j: nat): Item
    requires j < |items|
  {
    var e := ExecutionAt(tool, ran, items, j);
    if IsBuiltinCall(tool, items[j]) && IsComplete(e) then e.public.value else items[j]
  }

  function PublicItems(tool: Tool, ran: nat, items: seq<Item>): seq<Item> {
    seq(|items|, j requires 0 <= j < |items| => PublicAt(tool, ran, items, j))
  }

  function ExecutedUpTo(tool: Tool, ran: nat, items: seq<Item>, i: nat): seq<Item>
    requires i <= |items|
  {
    if i == 0 then []
    else
      var e := ExecutionAt(tool, ran, items, i - 1);
      ExecutedUpTo(tool, ran, items, i - 1)
      + (if IsBuiltinCall(tool, items[i - 1]) && IsComplete(e) then [e.public.value] else [])
  }

  function ReplaysUpTo(tool: Tool, ran: nat, items: seq<Item>, i: nat): seq<Item>
    requires i <= |items|
  {
    if i == 0 then []
    else
      var e := ExecutionAt(tool, ran, items, i - 1);
      ReplaysUpTo(tool, ran, items, i - 1)
      + (if IsBuiltinCall(tool, items[i - 1]) && IsComplete(e) then [e.replay.value] else [])
  }

  function ExecutedItems(tool: Tool, ran: nat, items: seq<Item>): seq<Item> {
    ExecutedUpTo(tool, ran, items, |items|)
  }

  function ReplayItems(tool: Tool, ran: nat, items: seq<Item>): seq<Item> {
    ReplaysUpTo(tool, ran, items, |items|)
  }

  // ---- Whole runs, by hop ----

  /** What a hop contributes to the transcript, whichever way it was received. */
  datatype Hop = Hop(output: seq<Item>, usages: seq<Option<Tokens>>)

  /** The calls executed before hop k. */
  function Ran(tool: Tool, hops: nat -> Hop, k: nat): nat {
    if k == 0 then 0 else Ran(tool, hops, k - 1) + |Calls(tool, hops(k - 1).output)|
  }

  /** The input of request k: the original items, then hop by hop the output items and the call results. */
  function Transcript(c: Context, hops: nat -> Hop, k: nat): seq<Item> {
    if k == 0 then EnsureInputItems(c.input)
    else
      Transcript(c, hops, k - 1) + hops(k - 1).output
      + ReplayItems(c.tool, Ran(c.tool, hops, k - 1), hops(k - 1).output)
  }

  /** The public output of the first k hops. */
  function PublicOutput(c: Context, hops: nat -> Hop, k: nat): seq<Item> {
    if k == 0 then []
    else PublicOutput(c, hops, k - 1) + PublicItems(c.tool, Ran(c.tool, hops, k - 1), hops(k - 1).output)
  }

  /** The usage accumulated over the first k hops. */
  function Accumulated(hops: nat -> Hop, k: nat): Tokens {
    if k == 0 then ZERO else AccumulateAll(Accumulated(hops, k - 1), hops(k - 1).usages)
  }

  function Requests(c: Context, hops: nat -> Hop, k: nat): seq<RequestBody> {
    seq(k, i requires 0 <= i < k => RequestBody(Transcript(c, hops, i), c.rest))
  }

  lemma BeforeFirstHop(c: Context, hops: nat -> Hop)
    ensures Ran(c.tool, hops, 0) == 0 && Transcript(c, hops, 0) == EnsureInputItems(c.input)
    ensures PublicOutput(c, hops, 0) == [] && Accumulated(hops, 0) == ZERO && Requests(c, hops, 0) == []
  {
  }

  lemma AfterHop(c: Context, hops: nat -> Hop, k: nat)
    ensures Ran(c.tool, hops, k + 1) == Ran(c.tool, hops, k) + |Calls(c.tool, hops(k).output)|
    ensures Transcript(c, hops, k + 1)
         == Transcript(c, hops, k) + hops(k).output + ReplayItems(c.tool, Ran(c.tool, hops, k), hops(k).output)
  {
    hide Calls, ReplayItems;
  }

  lemma RequestsGrow(c: Context, hops: nat -> Hop, k: nat)
    ensures |Requests(c, hops, k)| == k
    ensures Requests(c, hops, k + 1) == Requests(c, hops, k) + [RequestBody(Transcript(c, hops, k), c.rest)]
  {
    hide Transcript;
  }

  /** The billing event for one usage report, if the request is billed at all. */
  function Bill(c: Context, requestId: string, usage: Option<Tokens>, streaming: bool): seq<BillingEvent> {
    if !c.keyed then []
    else if usage.None? || c.perRequestModel then [BillingEvent(0, 0, 0, requestId, streaming)]
    else
      var u := Normalize(usage.value);
      [BillingEvent(u.prompt, u.completion, u.total, requestId, streaming)]
  }

  /** The billing event of one raw report: its counters in either form, or none for a model billed per request. */
  function EventFor(c: Context, requestId: string, usage: Option<Tokens>, streaming: bool): BillingEvent {
    if usage.None? || c.perRequestModel then BillingEvent(0, 0, 0, requestId, streaming)
    else BillingEvent(PromptOf(usage.value), CompletionOf(usage.value), usage.value.total, requestId, streaming)
  }

  lemma BillExactly(c: Context, requestId: string, usage: Option<Tokens>, streaming: bool)
    ensures Bill(c, requestId, usage, streaming) == if c.keyed then [EventFor(c, requestId, usage, streaming)] else []
  {
    if usage.Some? {
      NormalizedExactly(usage.value);
    }
  }

  /** A report in the form of the Responses API and the same one in the form of Chat Completions are billed and
      accumulated alike. */
  lemma FormsAgree(
      c: Context, requestId: string, streaming: bool, prompt: nat, completion: nat, total: int, acc: Tokens)
    ensures Bill(c, requestId, Some(Tokens(0, 0, total, prompt, completion)), streaming)
         == Bill(c, requestId, Some(Tokens(prompt, completion, total, 0, 0)), streaming)
    ensures var one := Accumulate(acc, Some(Tokens(0, 0, total, prompt, completion)));
            var two := Accumulate(acc, Some(Tokens(prompt, completion, total, 0, 0)));
            && one.prompt == two.prompt == acc.prompt + prompt
            && one.completion == two.completion == acc.completion + completion
            && one.total == two.total == acc.total + if total > 0 then total else prompt + completion
  {
  }

  /** The first hop from k on that does not lead to another request, or the iteration limit. */
  function FirstStop(goesOn: nat -> bool, k: nat): (n: nat)
    requires k <= MAX_TOOL_ITERATIONS
    ensures k <= n <= MAX_TOOL_ITERATIONS
    decreases MAX_TOOL_ITERATIONS - k
  {
    if k < MAX_TOOL_ITERATIONS && goesOn(k) then FirstStop(goesOn, k + 1) else k
  }

  predicate AllGo(goesOn: nat -> bool, k: nat) {
    k > 0 ==> AllGo(goesOn, k - 1) && goesOn(k - 1)
  }

  lemma {:induction false} EachGoes(goesOn: nat -> bool, k: nat)
    requires AllGo(goesOn, k)
    ensures forall j: nat :: j < k ==> goesOn(j)
  {
    if k > 0 {
      EachGoes(goesOn, k - 1);
    }
  }

  lemma {:induction false} FirstStopIs(goesOn: nat -> bool, k: nat, n: nat)
    requires k <= n <= MAX_TOOL_ITERATIONS
    requires forall j: nat :: k <= j < n ==> goesOn(j)
    requires n < MAX_TOOL_ITERATIONS ==> !goesOn(n)
    ensures FirstStop(goesOn, k) == n
    decreases n - k
  {
    if k < n {
      FirstStopIs(goesOn, k + 1, n);
    }
  }

  /** A loop that reached iteration n and does not go on from there ends there. */
  lemma StopsAt(goesOn: nat -> bool, n: nat)
    requires n <= MAX_TOOL_ITERATIONS && AllGo(goesOn, n)
    requires n < MAX_TOOL_ITERATIONS ==> !goesOn(n)
    ensures FirstStop(goesOn, 0) == n
  {
    EachGoes(goesOn, n);
    FirstStopIs(goesOn, 0, n);
  }

  /** How many requests a run that stops at hop n has sent. */
  function HopsUsed(n: nat): nat {
    if n < MAX_TOOL_ITERATIONS then n + 1 else MAX_TOOL_ITERATIONS
  }

  /** The direct connection to one enclave: it remembers what was sent and billed over it. */
  class UpstreamInvoker<Reply> {
    const script: nat -> Reply
    const context: Context
    var sent: seq<RequestBody>
    var billed: seq<BillingEvent>

    constructor (script: nat -> Reply, context: Context)
      ensures this.script == script && this.context == context
      ensures sent == [] && billed == []
    {
      this.script := script;
      this.context := context;
      sent, billed := [], [];
    }

    method Do(body: RequestBody) returns (reply: Reply)
      modifies this`sent
      ensures sent == old(sent) + [body]
      ensures reply == script(|old(sent)|)
    {
      reply := script(|sent|);
      sent := sent + [body];
    }

    method RecordUsage(requestId: string, usage: Option<Tokens>, streaming: bool)
      modifies this`billed
      ensures billed == old(billed) + Bill(context, requestId, usage, streaming)
    {
      if context.keyed {
        var event := BillingEvent(0, 0, 0, requestId, streaming);
        if usage.Some? && !context.perRequestModel {
          var u := Normalize(usage.value);
          event := event.(prompt := u.prompt, completion := u.completion, total := u.total);
        }
        billed := billed + [event];
      }
    }
  }

  /** Result of running the built-in calls of one hop. */
  datatype Processed = Processed(
    publicItems: seq<Item>,
    replayItems: seq<Item>,
    executedAny: bool,
    mixedWithUserTools: bool,
    executedPublicItems: seq<Item>)

  /** Executes the built-in calls among the output items, in order; fails at the first one that fails. */
  method ProcessOutput(tool: Tool, ran: nat, outputItems: seq<Item>) returns (result: Option<Processed>)
    ensures result.Some? <==> Runs(tool, ran, outputItems)
    ensures result.Some? ==>
              && result.value.publicItems == PublicItems(tool, ran, outputItems)
              && result.value.replayItems == ReplayItems(tool, ran, outputItems)
              && result.value.executedPublicItems == ExecutedItems(tool, ran, outputItems)
              && result.value.executedAny == (Calls(tool, outputItems) != [])
              && result.value.mixedWithUserTools == HasUserCall(tool, outputItems)
  {
    var publicItems, replayItems, executedItems := [], [], [];
    var executedAny, mixed := false, false;
    var executions := ran;
    for i := 0 to |outputItems|
      invariant executions == ran + |CallsUpTo(tool, outputItems, i)|
      invariant RunsUpTo(tool, ran, outputItems, i)
      invariant |publicItems| == i
      invariant forall j :: 0 <= j < i ==> publicItems[j] == PublicAt(tool, ran, outputItems, j)
      invariant replayItems == ReplaysUpTo(tool, ran, outputItems, i)
      invariant executedItems == ExecutedUpTo(tool, ran, outputItems, i)
      invariant executedAny <==> CallsUpTo(tool, outputItems, i) != []
      invariant mixed <==> UserCallUpTo(tool, outputItems, i)
    {
      var item := outputItems[i];
      if !IsBuiltinCall(tool, item) {
        publicItems := publicItems + [item];
        if IsFunctionCall(item) {
          mixed := true;
        }
        continue;
      }
      var e := tool.execute(executions, item);
      if e.ExecError? || e.public.None? || e.replay.None? {
        return None;
      }
      executions := executions + 1;
      executedAny := true;
      publicItems := publicItems + [e.public.value];
      executedItems := executedItems + [e.public.value];
      replayItems := replayItems + [e.replay.value];
    }
    result := Some(Processed(publicItems, replayItems, executedAny, mixed, executedItems));
  }
}
