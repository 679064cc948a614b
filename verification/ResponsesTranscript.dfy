/** What every request and every answer of a tool loop contains, whichever way the hops were received. */
module ResponsesTranscript {
  import opened Text
  import opened Usage
  import opened ResponsesModel

  // ---- The contract of the built-in tool ----

  /** A call result answers a call when it carries the call's trimmed identifier. */
  predicate Answers(result: Item, call: Item) {
    result.CallOutput? && call.FunctionCall? && result.callId == Trim(call.callId)
  }

  /** A completed execution gives a public item under the call's id and an answer to the call. */
  ghost predicate HonoursContract(tool: Tool) {
    forall n: nat, item ::
      IsBuiltinCall(tool, item) && IsComplete(tool.execute(n, item)) ==>
        var e := tool.execute(n, item);
        && e.public.value.ExecutedCall?
        && (Trim(item.id) != "" ==> ItemId(e.public.value) == Trim(item.id))
        && Answers(e.replay.value, item)
  }

  datatype RuntimeResult =
    | RuntimeError
    | RuntimeResult(id: string, code: string, containerId: string, status: string, outputs: string, exitCode: int)

  /** The code interpreter (builtins/codeinterpreter/tool.go): `run` is the sandbox, given the number of
      the execution, the call's identifier and its arguments; `encode` renders a result as JSON. */
  function CodeInterpreter(run: (nat, string, string) -> RuntimeResult, encode: RuntimeResult -> string,
                           includeOutputs: bool): Tool
  {
    Tool(
      name => Trim(name) == "code_interpreter",
      (n: nat, item: Item) =>
        if !item.FunctionCall? then ExecError
        else
          var r := run(n, Trim(item.callId), Trim(item.arguments));
          if r.RuntimeError? then ExecError
          else
            Executed(
              Some(ExecutedCall(FirstNonEmpty(Trim(item.id), r.id), r.code, r.containerId, r.status,
                                if includeOutputs then Some(r.outputs) else None)),
              Some(CallOutput(Trim(item.callId), encode(r)))))
  }

  /** The code interpreter honours the contract, whatever its sandbox does. */
  lemma CodeInterpreterHonoursContract(run: (nat, string, string) -> RuntimeResult,
                                       encode: RuntimeResult -> string, includeOutputs: bool)
    ensures HonoursContract(CodeInterpreter(run, encode, includeOutputs))
  {
    hide IsSpace, TextStart, TextEnd, Trim;
    var tool := CodeInterpreter(run, encode, includeOutputs);
    forall n: nat, item | IsBuiltinCall(tool, item) && IsComplete(tool.execute(n, item))
      ensures var e := tool.execute(n, item);
              && e.public.value.ExecutedCall?
              && (Trim(item.id) != "" ==> ItemId(e.public.value) == Trim(item.id))
              && Answers(e.replay.value, item)
    {
      TrimTwice(item.id);
    }
  }

  /** What the code interpreter does with a call: it runs the trimmed arguments and gives the result, whole, to the
      client as an item and to the model as the answer. */
  lemma CodeInterpreterExactly(run: (nat, string, string) -> RuntimeResult, encode: RuntimeResult -> string,
                               includeOutputs: bool, n: nat, call: Item)
    requires call.FunctionCall?
    ensures var tool := CodeInterpreter(run, encode, includeOutputs);
            var r, e := run(n, Trim(call.callId), Trim(call.arguments)), tool.execute(n, call);
            && (IsBuiltinCall(tool, call) <==> Trim(call.name) == "code_interpreter")
            && (e.ExecError? <==> r.RuntimeError?)
            && (r.RuntimeResult? ==>
                  && e.public == Some(ExecutedCall(if Trim(Trim(call.id)) != "" then Trim(call.id)
                                                   else if Trim(r.id) != "" then r.id else "",
                                                   r.code, r.containerId, r.status,
                                                   if includeOutputs then Some(r.outputs) else None))
                  && e.replay == Some(CallOutput(Trim(call.callId), encode(r))))
  {
    hide Trim;
  }

  // ---- Calls and their answers ----

  lemma {:induction false} ReplaysAnswerCalls(tool: Tool, ran: nat, items: seq<Item>, i: nat)
    requires i <= |items| && HonoursContract(tool) && RunsUpTo(tool, ran, items, i)
    ensures |ReplaysUpTo(tool, ran, items, i)| == |CallsUpTo(tool, items, i)|
    ensures forall j :: 0 <= j < |CallsUpTo(tool, items, i)| ==>
              Answers(ReplaysUpTo(tool, ran, items, i)[j], CallsUpTo(tool, items, i)[j])
    ensures forall j :: 0 <= j < |CallsUpTo(tool, items, i)| ==>
              tool.execute(ran + j, CallsUpTo(tool, items, i)[j]).Executed?
              && tool.execute(ran + j, CallsUpTo(tool, items, i)[j]).replay == Some(ReplaysUpTo(tool, ran, items, i)[j])
  {
    hide Answers, Trim;
    if i > 0 {
      ReplaysAnswerCalls(tool, ran, items, i - 1);
    }
  }

  lemma {:induction false} CallIsListed(tool: Tool, items: seq<Item>, i: nat, p: nat)
    requires p < i <= |items| && IsBuiltinCall(tool, items[p])
    ensures items[p] in CallsUpTo(tool, items, i)
  {
    if p < i - 1 {
      CallIsListed(tool, items, i - 1, p);
    }
  }

  lemma {:induction false} NoUserCallAt(tool: Tool, items: seq<Item>, i: nat, p: nat)
    requires p < i <= |items| && !UserCallUpTo(tool, items, i)
    ensures !IsUserCall(tool, items[p])
  {
    if p < i - 1 {
      NoUserCallAt(tool, items, i - 1, p);
    }
  }

  /** Hop k only called the built-in tool, and all its calls were executed. */
  predicate Settled(tool: Tool, hops: nat -> Hop, k: nat) {
    Runs(tool, Ran(tool, hops, k), hops(k).output) && !HasUserCall(tool, hops(k).output)
  }

  predicate AllSettled(tool: Tool, hops: nat -> Hop, k: nat) {
    k > 0 ==> AllSettled(tool, hops, k - 1) && Settled(tool, hops, k - 1)
  }

  lemma {:induction false} SettledAt(tool: Tool, hops: nat -> Hop, k: nat, j: nat)
    requires j < k && AllSettled(tool, hops, k)
    ensures Settled(tool, hops, j)
  {
    hide Settled;
    if j < k - 1 {
      SettledAt(tool, hops, k - 1, j);
    }
  }

  /** No call after the first n items is left without an answer behind it. */
  predicate Closed(items: seq<Item>, n: nat) {
    forall p :: n <= p < |items| && IsFunctionCall(items[p]) ==> AnsweredAfter(items, p)
  }

  predicate AnsweredAfter(items: seq<Item>, p: int)
    requires 0 <= p < |items|
  {
    exists q :: p < q < |items| && Answers(items[q], items[p])
  }

  /** Every call of a settled hop is answered in the results that follow its output. */
  lemma HopIsClosed(tool: Tool, ran: nat, items: seq<Item>)
    requires HonoursContract(tool) && Runs(tool, ran, items) && !HasUserCall(tool, items)
    ensures Closed(items + ReplayItems(tool, ran, items), 0)
  {
    hide Answers, Trim, HonoursContract;
    var replays, calls := ReplayItems(tool, ran, items), Calls(tool, items);
    var all := items + replays;
    forall j | 0 <= j < |replays| ensures !IsFunctionCall(replays[j]) {
      ReplayIsNoCall(tool, ran, items, j);
    }
    ReplaysAnswerCalls(tool, ran, items, |items|);
    forall p | 0 <= p < |all| && IsFunctionCall(all[p])
      ensures AnsweredAfter(all, p)
    {
      if p < |items| {
        NoUserCallAt(tool, items, |items|, p);
        CallIsListed(tool, items, |items|, p);
        var j :| 0 <= j < |calls| && calls[j] == items[p];
        assert Answers(all[|items| + j], all[p]);
      }
    }
  }

  lemma ReplayIsNoCall(tool: Tool, ran: nat, items: seq<Item>, j: nat)
    requires HonoursContract(tool) && Runs(tool, ran, items) && j < |ReplayItems(tool, ran, items)|
    ensures !IsFunctionCall(ReplayItems(tool, ran, items)[j])
  {
    hide Trim;
    ReplaysAnswerCalls(tool, ran, items, |items|);
    assert Answers(ReplayItems(tool, ran, items)[j], Calls(tool, items)[j]);
  }

  lemma ClosedAppend(a: seq<Item>, n: nat, b: seq<Item>)
    requires Closed(a, n) && Closed(b, 0)
    ensures Closed(a + b, n)
  {
    hide Answers;
    var all := a + b;
    forall p | n <= p < |all| && IsFunctionCall(all[p])
      ensures AnsweredAfter(all, p)
    {
      if p < |a| {
        assert AnsweredAfter(a, p);
        var q :| p < q < |a| && Answers(a[q], a[p]);
        assert Answers(all[q], all[p]);
      } else {
        assert AnsweredAfter(b, p - |a|);
        var q :| p - |a| < q < |b| && Answers(b[q], b[p - |a|]);
        assert Answers(all[|a| + q], all[p]);
      }
    }
  }

  /** Transcript closure: the input of request k starts with the client's items, and no call that the
      router appended to them is without its answer. */
  lemma {:induction false} TranscriptClosed(c: Context, hops: nat -> Hop, k: nat)
    requires HonoursContract(c.tool) && AllSettled(c.tool, hops, k)
    ensures EnsureInputItems(c.input) <= Transcript(c, hops, k)
    ensures Closed(Transcript(c, hops, k), |EnsureInputItems(c.input)|)
  {
    hide Answers, Runs, HasUserCall, ReplayItems;
    if k > 0 {
      hide Closed;
      TranscriptClosed(c, hops, k - 1);
      var ran, output := Ran(c.tool, hops, k - 1), hops(k - 1).output;
      assert Settled(c.tool, hops, k - 1);
      HopIsClosed(c.tool, ran, output);
      var before := Transcript(c, hops, k - 1);
      ClosedAppend(before, |EnsureInputItems(c.input)|, output + ReplayItems(c.tool, ran, output));
      assert before + output + ReplayItems(c.tool, ran, output) == before + (output + ReplayItems(c.tool, ran, output));
    }
  }

  /** Transcript layout: between the inputs of two consecutive requests lie exactly the items of the hop
      between them, followed by one answer per built-in call, in the order of the calls: what its own execution
      gave. */
  lemma TranscriptLayout(c: Context, hops: nat -> Hop, k: nat, j: nat)
    requires j < k && HonoursContract(c.tool) && AllSettled(c.tool, hops, k)
    ensures var output, ran := hops(j).output, Ran(c.tool, hops, j);
            && Transcript(c, hops, j + 1) == Transcript(c, hops, j) + output + ReplayItems(c.tool, ran, output)
            && AnswersOf(c.tool, ran, Calls(c.tool, output), ReplayItems(c.tool, ran, output))
            && Transcript(c, hops, j + 1) <= Transcript(c, hops, k)
  {
    hide Answers, HasUserCall, Calls, ReplayItems, Runs, AnswersOf, Ran, Transcript, HonoursContract, AllSettled;
    SettledAt(c.tool, hops, k, j);
    AfterHop(c, hops, j);
    HopAnswers(c.tool, Ran(c.tool, hops, j), hops(j).output);
    TranscriptGrows(c, hops, j + 1, k);
  }

  /** The results answer the calls one to one, each with what its own execution gave. */
  predicate AnswersOf(tool: Tool, ran: nat, calls: seq<Item>, results: seq<Item>) {
    && |results| == |calls|
    && forall i :: 0 <= i < |calls| ==>
         && Answers(results[i], calls[i]) && tool.execute(ran + i, calls[i]).Executed?
         && tool.execute(ran + i, calls[i]).replay == Some(results[i])
  }

  lemma HopAnswers(tool: Tool, ran: nat, items: seq<Item>)
    requires HonoursContract(tool) && Runs(tool, ran, items)
    ensures AnswersOf(tool, ran, Calls(tool, items), ReplayItems(tool, ran, items))
  {
    hide Answers, HonoursContract, CallsUpTo, ReplaysUpTo;
    ReplaysAnswerCalls(tool, ran, items, |items|);
  }

  lemma {:induction false} TranscriptGrows(c: Context, hops: nat -> Hop, j: nat, k: nat)
    requires j <= k
    ensures Transcript(c, hops, j) <= Transcript(c, hops, k)
  {
    if j < k {
      TranscriptGrows(c, hops, j, k - 1);
    }
  }

  // ---- Output conservation ----

  /** All output items of the first k hops, as the model produced them. */
  function AllOutput(hops: nat -> Hop, k: nat): seq<Item> {
    if k == 0 then [] else AllOutput(hops, k - 1) + hops(k - 1).output
  }

  lemma {:induction false} CallsAppend(tool: Tool, a: seq<Item>, b: seq<Item>, i: nat)
    requires i <= |b|
    ensures CallsUpTo(tool, a + b, |a| + i) == Calls(tool, a) + CallsUpTo(tool, b, i)
  {
    if i == 0 {
      CallsOfPrefix(tool, a, b, |a|);
    } else {
      CallsAppend(tool, a, b, i - 1);
      assert (a + b)[|a| + i - 1] == b[i - 1];
    }
  }

  lemma {:induction false} CallsOfPrefix(tool: Tool, a: seq<Item>, b: seq<Item>, i: nat)
    requires i <= |a|
    ensures CallsUpTo(tool, a + b, i) == CallsUpTo(tool, a, i)
  {
    if i > 0 {
      CallsOfPrefix(tool, a, b, i - 1);
      assert (a + b)[i - 1] == a[i - 1];
    }
  }

  lemma PublicAppend(tool: Tool, ran: nat, a: seq<Item>, b: seq<Item>)
    ensures PublicItems(tool, ran, a + b)
         == PublicItems(tool, ran, a) + PublicItems(tool, ran + |Calls(tool, a)|, b)
  {
    var whole := PublicItems(tool, ran, a + b);
    var parts := PublicItems(tool, ran, a) + PublicItems(tool, ran + |Calls(tool, a)|, b);
    forall p | 0 <= p < |whole|
      ensures whole[p] == parts[p]
    {
      if p < |a| {
        CallsOfPrefix(tool, a, b, p);
      } else {
        CallsAppend(tool, a, b, p - |a|);
      }
    }
  }

  lemma {:induction false} RanCountsCalls(tool: Tool, hops: nat -> Hop, k: nat)
    ensures Ran(tool, hops, k) == |Calls(tool, AllOutput(hops, k))|
  {
    if k > 0 {
      RanCountsCalls(tool, hops, k - 1);
      CallsAppend(tool, AllOutput(hops, k - 1), hops(k - 1).output, |hops(k - 1).output|);
    }
  }

  lemma {:induction false} PublicIsReplaced(c: Context, hops: nat -> Hop, k: nat)
    ensures PublicOutput(c, hops, k) == PublicItems(c.tool, 0, AllOutput(hops, k))
  {
    hide PublicItems, Calls;
    if k == 0 {
      assert PublicItems(c.tool, 0, []) == [] by {
        PublicLength(c.tool, 0, []);
      }
    } else {
      PublicIsReplaced(c, hops, k - 1);
      RanCountsCalls(c.tool, hops, k - 1);
      PublicAppend(c.tool, 0, AllOutput(hops, k - 1), hops(k - 1).output);
    }
  }

  lemma PublicLength(tool: Tool, ran: nat, items: seq<Item>)
    ensures |PublicItems(tool, ran, items)| == |items|
  {
  }

  /** Output conservation: the public output of k hops is everything the model produced, in order and
      nothing else, each built-in call replaced in place by the result of its own execution. How the
      items were spread over the hops does not show. */
  lemma OutputConserved(c: Context, hops: nat -> Hop, k: nat)
    ensures PublicOutput(c, hops, k) == PublicItems(c.tool, 0, AllOutput(hops, k))
    ensures |PublicOutput(c, hops, k)| == |AllOutput(hops, k)|
    ensures forall p :: 0 <= p < |AllOutput(hops, k)| && !IsBuiltinCall(c.tool, AllOutput(hops, k)[p]) ==>
              PublicOutput(c, hops, k)[p] == AllOutput(hops, k)[p]
    ensures forall p :: 0 <= p < |AllOutput(hops, k)| && IsBuiltinCall(c.tool, AllOutput(hops, k)[p]) ==>
              var e := c.tool.execute(|CallsUpTo(c.tool, AllOutput(hops, k), p)|, AllOutput(hops, k)[p]);
              e.Executed? && e.public.Some? && e.replay.Some? ==> PublicOutput(c, hops, k)[p] == e.public.value
  {
    PublicIsReplaced(c, hops, k);
    hide PublicOutput, AllOutput;
  }

  lemma RunsAppend(tool: Tool, ran: nat, a: seq<Item>, b: seq<Item>)
    requires Runs(tool, ran, a) && Runs(tool, ran + |Calls(tool, a)|, b)
    ensures Runs(tool, ran, a + b)
  {
    forall p | 0 <= p < |a + b| && IsBuiltinCall(tool, (a + b)[p])
      ensures IsComplete(ExecutionAt(tool, ran, a + b, p))
    {
      if p < |a| {
        CallsOfPrefix(tool, a, b, p);
        assert IsComplete(ExecutionAt(tool, ran, a, p));
      } else {
        CallsAppend(tool, a, b, p - |a|);
        assert IsComplete(ExecutionAt(tool, ran + |Calls(tool, a)|, b, p - |a|));
      }
    }
  }

  predicate AllRun(tool: Tool, hops: nat -> Hop, k: nat) {
    k > 0 ==> AllRun(tool, hops, k - 1) && Runs(tool, Ran(tool, hops, k - 1), hops(k - 1).output)
  }

  lemma {:induction false} AllCallsRun(tool: Tool, hops: nat -> Hop, k: nat)
    requires AllRun(tool, hops, k)
    ensures Runs(tool, 0, AllOutput(hops, k))
  {
    if k == 0 {
      return;
    }
    hide Runs, Calls;
    AllCallsRun(tool, hops, k - 1);
    RanCountsCalls(tool, hops, k - 1);
    RunsAppend(tool, 0, AllOutput(hops, k - 1), hops(k - 1).output);
  }

  /** No call of the built-in tool survives in the public output. */
  lemma NoBuiltinCallIsPublic(c: Context, hops: nat -> Hop, k: nat, p: nat)
    requires HonoursContract(c.tool) && AllRun(c.tool, hops, k)
    requires p < |PublicOutput(c, hops, k)|
    ensures !IsBuiltinCall(c.tool, PublicOutput(c, hops, k)[p])
  {
    hide Trim, AllOutput, PublicOutput, AllRun;
    OutputConserved(c, hops, k);
    AllCallsRun(c.tool, hops, k);
    var all := AllOutput(hops, k);
    if IsBuiltinCall(c.tool, all[p]) {
      assert IsComplete(ExecutionAt(c.tool, 0, all, p));
    }
  }

  // ---- Token conservation ----

  function BilledPrompt(events: seq<BillingEvent>): int {
    if events == [] then 0 else BilledPrompt(events[..|events| - 1]) + events[|events| - 1].prompt
  }

  function BilledCompletion(events: seq<BillingEvent>): int {
    if events == [] then 0 else BilledCompletion(events[..|events| - 1]) + events[|events| - 1].completion
  }

  function BilledTotal(events: seq<BillingEvent>): int {
    if events == [] then 0 else BilledTotal(events[..|events| - 1]) + events[|events| - 1].total
  }

  /** The totals of the usage reports, each its own or, if that is zero, prompt plus completion. */
  function EffectiveTotals(usages: seq<Option<Tokens>>): int {
    if usages == [] then 0
    else
      EffectiveTotals(usages[..|usages| - 1])
      + (if usages[|usages| - 1].Some? then EffectiveTotal(usages[|usages| - 1].value) else 0)
  }

  /** What is reported to the client agrees with what is billed. */
  predicate Balanced(reported: Tokens, billed: seq<BillingEvent>) {
    && reported.prompt == BilledPrompt(billed)
    && reported.completion == BilledCompletion(billed)
    && BilledTotal(billed) <= reported.total
  }

  /** One usage report and its bill keep the balance. */
  lemma BalanceStep(c: Context, reported: Tokens, billed: seq<BillingEvent>, requestId: string,
                    usage: Option<Tokens>, streaming: bool)
    requires c.keyed && !c.perRequestModel && Balanced(reported, billed)
    requires usage.Some? ==> NonNegative(usage.value)
    ensures Balanced(Accumulate(reported, usage), billed + Bill(c, requestId, usage, streaming))
    ensures |billed + Bill(c, requestId, usage, streaming)| == |billed| + 1
  {
    var bill := Bill(c, requestId, usage, streaming);
    var after := billed + bill;
    assert |bill| == 1 && after[..|after| - 1] == billed && after[|after| - 1] == bill[0];
  }

  lemma {:induction false} TotalsAccumulate(acc: Tokens, usages: seq<Option<Tokens>>)
    ensures AccumulateAll(acc, usages).total == acc.total + EffectiveTotals(usages)
  {
    if usages != [] {
      TotalsAccumulate(acc, usages[..|usages| - 1]);
    }
  }
}
