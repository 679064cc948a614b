/** What the two tool loops guarantee over whole runs, and that the streaming one does what the other does. */
module ResponsesRefinement {
  import opened Text
  import opened Usage
  import opened ResponsesModel
  import opened ResponsesTranscript
  import opened ResponsesJson
  import opened ResponsesStream

  lemma {:induction false} StopReached(goesOn: nat -> bool, k: nat)
    requires k <= MAX_TOOL_ITERATIONS && AllGo(goesOn, k)
    ensures AllGo(goesOn, FirstStop(goesOn, k))
    ensures FirstStop(goesOn, k) < MAX_TOOL_ITERATIONS ==> !goesOn(FirstStop(goesOn, k))
    decreases MAX_TOOL_ITERATIONS - k
  {
    if k < MAX_TOOL_ITERATIONS && goesOn(k) {
      StopReached(goesOn, k + 1);
    }
  }

  // ---- Transcript closure in both loops ----

  lemma {:induction false} JsonHopsSettle(c: Context, script: nat -> JsonReply, k: nat)
    requires AllGo(JsonGoing(c, script), k)
    ensures AllSettled(c.tool, JsonHops(script), k)
  {
    hide Runs, HasUserCall, Calls;
    if k > 0 {
      JsonHopsSettle(c, script, k - 1);
      assert JsonHops(script)(k - 1) == JsonHop(script(k - 1));
    }
  }

  lemma {:induction false} StreamHopsSettle(c: Context, script: nat -> StreamReply, k: nat)
    requires AllGo(StreamGoing(c, script), k)
    ensures AllSettled(c.tool, StreamHops(script), k)
  {
    hide Runs, HasUserCall, HadTool;
    if k > 0 {
      StreamHopsSettle(c, script, k - 1);
    }
  }

  lemma {:induction false} AllGoUpTo(goesOn: nat -> bool, i: nat, k: nat)
    requires i <= k && AllGo(goesOn, k)
    ensures AllGo(goesOn, i)
  {
    if i < k {
      AllGoUpTo(goesOn, i, k - 1);
    }
  }

  /** Without streaming, no request ever carries a call the router appended and left unanswered. */
  lemma JsonRequestsClosed(c: Context, script: nat -> JsonReply, i: nat)
    requires HonoursContract(c.tool) && i < HopsUsed(JsonEnd(c, script))
    ensures var input := Requests(c, JsonHops(script), HopsUsed(JsonEnd(c, script)))[i].input;
            EnsureInputItems(c.input) <= input && Closed(input, |EnsureInputItems(c.input)|)
  {
    hide HonoursContract, Closed;
    StopReached(JsonGoing(c, script), 0);
    AllGoUpTo(JsonGoing(c, script), i, JsonEnd(c, script));
    JsonHopsSettle(c, script, i);
    TranscriptClosed(c, JsonHops(script), i);
  }

  /** With streaming, neither does any. */
  lemma StreamRequestsClosed(c: Context, script: nat -> StreamReply, i: nat)
    requires HonoursContract(c.tool) && i < HopsUsed(StreamEnd(c, script))
    ensures var input := Requests(c, StreamHops(script), HopsUsed(StreamEnd(c, script)))[i].input;
            EnsureInputItems(c.input) <= input && Closed(input, |EnsureInputItems(c.input)|)
  {
    hide HonoursContract, Closed;
    StopReached(StreamGoing(c, script), 0);
    AllGoUpTo(StreamGoing(c, script), i, StreamEnd(c, script));
    StreamHopsSettle(c, script, i);
    TranscriptClosed(c, StreamHops(script), i);
  }

  // ---- Token conservation in both loops ----

  predicate JsonUsable(r: JsonReply) {
    r.JsonReply? && (r.body.Some? && r.body.value.usage.Some? ==> NonNegative(r.body.value.usage.value))
  }

  /** Without streaming, k answered requests are k billing events, and what is reported to the client is
      what was billed; only the reported total may exceed the billed one. */
  lemma {:induction false} JsonTokensBalance(c: Context, script: nat -> JsonReply, k: nat)
    requires c.keyed && !c.perRequestModel
    requires forall j :: 0 <= j < k ==> JsonUsable(script(j))
    ensures Balanced(Accumulated(JsonHops(script), k), JsonBilled(c, script, k))
    ensures |JsonBilled(c, script, k)| == k
  {
    hide Balanced, NonNegative;
    if k == 0 {
      assert Balanced(ZERO, []) by {
        BalancedNothing();
      }
    } else {
      JsonTokensBalance(c, script, k - 1);
      assert JsonUsable(script(k - 1));
      var r, hops := script(k - 1), JsonHops(script);
      var usage := if r.body.Some? then r.body.value.usage else None;
      AccumulateOne(Accumulated(hops, k - 1), usage);
      BalanceStep(c, Accumulated(hops, k - 1), JsonBilled(c, script, k - 1), r.requestId, usage, false);
      assert hops(k - 1) == JsonHop(r);
    }
  }

  lemma BalancedNothing()
    ensures Balanced(ZERO, [])
  {
  }

  predicate AllNonNegative(usages: seq<Option<Tokens>>) {
    forall i :: 0 <= i < |usages| && usages[i].Some? ==> NonNegative(usages[i].value)
  }

  lemma {:induction false} BillAllBalances(c: Context, requestId: string, usages: seq<Option<Tokens>>,
                                           acc: Tokens, billed: seq<BillingEvent>)
    requires c.keyed && !c.perRequestModel && Balanced(acc, billed) && AllNonNegative(usages)
    ensures Balanced(AccumulateAll(acc, usages), billed + BillAll(c, requestId, usages))
    ensures |billed + BillAll(c, requestId, usages)| == |billed| + |usages|
  {
    hide Balanced, Bill, Accumulate, NonNegative;
    if usages == [] {
      assert billed + BillAll(c, requestId, usages) == billed;
    } else {
      BillAllBalances(c, requestId, Front(usages), acc, billed);
      var before := billed + BillAll(c, requestId, Front(usages));
      BalanceStep(c, AccumulateAll(acc, Front(usages)), before, requestId, Last(usages), true);
      assert billed + BillAll(c, requestId, usages) == before + Bill(c, requestId, Last(usages), true);
    }
  }

  function ReportsUpTo(hops: nat -> Hop, k: nat): nat {
    if k == 0 then 0 else ReportsUpTo(hops, k - 1) + |hops(k - 1).usages|
  }

  /** With streaming, there is one billing event per reported usage, and reports and bills agree likewise. */
  lemma {:induction false} StreamTokensBalance(c: Context, script: nat -> StreamReply, k: nat)
    requires c.keyed && !c.perRequestModel
    requires forall j :: 0 <= j < k ==> AllNonNegative(StreamHop(script(j)).usages)
    ensures Balanced(Accumulated(StreamHops(script), k), StreamBilled(c, script, k))
    ensures |StreamBilled(c, script, k)| == ReportsUpTo(StreamHops(script), k)
  {
    hide Balanced, AllNonNegative, ReportedUsages, LastCompleted, BillAll, AccumulateAll;
    if k == 0 {
      assert Balanced(ZERO, []) by {
        BalancedNothing();
      }
    } else {
      StreamTokensBalance(c, script, k - 1);
      var r, hops := script(k - 1), StreamHops(script);
      assert hops(k - 1) == StreamHop(r) && AllNonNegative(StreamHop(r).usages);
      if r.StreamReply? && r.status < 400 {
        BillAllBalances(c, r.requestId, ReportedUsages(r.events), Accumulated(hops, k - 1),
                        StreamBilled(c, script, k - 1));
      } else {
        NothingAccumulates(Accumulated(hops, k - 1));
        assert StreamBilled(c, script, k) == StreamBilled(c, script, k - 1);
      }
    }
  }

  lemma NothingAccumulates(acc: Tokens)
    ensures AccumulateAll(acc, []) == acc
  {
  }

  /** Token conservation over a run without streaming: one billing event per request, at most twelve, and
      the usage reported with the answer is the sum of what was billed. The reported total is the sum of
      the hops' totals, each replaced by prompt plus completion where it is zero. */
  lemma JsonReportMatchesBills(c: Context, script: nat -> JsonReply)
    requires c.keyed && !c.perRequestModel
    requires JsonFinal(JsonResult(c, script)).Some?
    requires forall j :: 0 <= j < HopsUsed(JsonEnd(c, script)) ==> JsonUsable(script(j))
    ensures var n, reported := HopsUsed(JsonEnd(c, script)), JsonFinal(JsonResult(c, script)).value.1;
            && Balanced(reported, JsonBilled(c, script, n))
            && |JsonBilled(c, script, n)| == n <= MAX_TOOL_ITERATIONS
            && reported.total == TotalsUpTo(JsonHops(script), n)
  {
    hide JsonEnd, Accumulated, PublicOutput, Runs, Calls, Balanced, JsonUsable, TotalsUpTo;
    var n := HopsUsed(JsonEnd(c, script));
    JsonTokensBalance(c, script, n);
    AccumulatedTotals(JsonHops(script), n);
  }

  /** The same over a streaming run, with one billing event per usage report. */
  lemma StreamReportMatchesBills(c: Context, script: nat -> StreamReply)
    requires c.keyed && !c.perRequestModel
    requires StreamResult(c, script).Finished? || StreamResult(c, script).PassedThrough?
    requires forall j :: 0 <= j < HopsUsed(StreamEnd(c, script)) ==> AllNonNegative(StreamHop(script(j)).usages)
    ensures var n, reported := HopsUsed(StreamEnd(c, script)), StreamResult(c, script).reported;
            && Balanced(reported, StreamBilled(c, script, n))
            && |StreamBilled(c, script, n)| == ReportsUpTo(StreamHops(script), n)
            && reported.total == TotalsUpTo(StreamHops(script), n)
  {
    hide StreamEnd, Accumulated, PublicOutput, Runs, HadTool, Balanced, AllNonNegative, TotalsUpTo;
    var n := HopsUsed(StreamEnd(c, script));
    StreamTokensBalance(c, script, n);
    AccumulatedTotals(StreamHops(script), n);
  }

  function TotalsUpTo(hops: nat -> Hop, k: nat): int {
    if k == 0 then 0 else TotalsUpTo(hops, k - 1) + EffectiveTotals(hops(k - 1).usages)
  }

  lemma {:induction false} AccumulatedTotals(hops: nat -> Hop, k: nat)
    ensures Accumulated(hops, k).total == TotalsUpTo(hops, k)
  {
    if k > 0 {
      AccumulatedTotals(hops, k - 1);
      TotalsAccumulate(Accumulated(hops, k - 1), hops(k - 1).usages);
    }
  }

  /** An answer assembled without streaming never shows a call of the built-in tool. */
  lemma NoBuiltinCallInAnswer(c: Context, script: nat -> JsonReply, p: nat)
    requires HonoursContract(c.tool) && JsonResult(c, script).Answered?
    requires p < |JsonResult(c, script).response.output|
    ensures !IsBuiltinCall(c.tool, JsonResult(c, script).response.output[p])
  {
    hide HonoursContract, Accumulated, JsonEnd, AllSettled, Ran, Runs, PublicOutput, Calls, IsBuiltinCall, AllGo;
    var n, hops := JsonEnd(c, script), JsonHops(script);
    JsonEndReached(c, script);
    JsonHopsSettle(c, script, n);
    SettledMeansRun(c.tool, hops, n);
    assert AllRun(c.tool, hops, n + 1);
    NoBuiltinCallIsPublic(c, hops, n + 1, p);
  }

  lemma JsonEndReached(c: Context, script: nat -> JsonReply)
    ensures AllGo(JsonGoing(c, script), JsonEnd(c, script))
  {
    StopReached(JsonGoing(c, script), 0);
  }

  lemma {:induction false} SettledMeansRun(tool: Tool, hops: nat -> Hop, k: nat)
    requires AllSettled(tool, hops, k)
    ensures AllRun(tool, hops, k)
  {
    hide Runs, HasUserCall;
    if k > 0 {
      SettledMeansRun(tool, hops, k - 1);
    }
  }

  // ---- What is reported and billed, in terms of the raw reports ----

  /** The usage reports of the first k hops, as the model server sent them. */
  function AllReports(hops: nat -> Hop, k: nat): seq<Option<Tokens>> {
    if k == 0 then [] else AllReports(hops, k - 1) + hops(k - 1).usages
  }

  lemma SumsAppend(a: seq<Option<Tokens>>, b: seq<Option<Tokens>>)
    ensures Sums(a + b) == Plus(Sums(a), Sums(b))
  {
    SumAppend(PromptOf, a, b);
    SumAppend(CompletionOf, a, b);
    SumAppend(TotalOf, a, b);
    SumAppend((u: Tokens) => u.input, a, b);
    SumAppend((u: Tokens) => u.output, a, b);
  }

  /** What is accumulated over the hops are the sums of the raw counters, each in either of its two forms. */
  lemma {:induction false} AccumulatedIsSum(hops: nat -> Hop, k: nat)
    ensures Accumulated(hops, k) == Sums(AllReports(hops, k))
  {
    hide Sums, AccumulateAll;
    if k == 0 {
      assert Sums([]) == ZERO by {
        NothingSums();
      }
    } else {
      AccumulatedIsSum(hops, k - 1);
      AccumulatingSums(Accumulated(hops, k - 1), hops(k - 1).usages);
      SumsAppend(AllReports(hops, k - 1), hops(k - 1).usages);
    }
  }

  lemma NothingSums()
    ensures Sums([]) == ZERO
  {
  }

  /** What a run without streaming reports at its end are the sums over the raw reports of its hops. */
  lemma JsonReportIsSum(c: Context, script: nat -> JsonReply)
    requires JsonFinal(JsonResult(c, script)).Some?
    ensures JsonFinal(JsonResult(c, script)).value.1 == Sums(AllReports(JsonHops(script), HopsUsed(JsonEnd(c, script))))
  {
    hide JsonEnd, Accumulated, PublicOutput, Runs, Calls, Sums, AllReports;
    AccumulatedIsSum(JsonHops(script), HopsUsed(JsonEnd(c, script)));
  }

  /** And so are those of a streaming run. */
  lemma StreamReportIsSum(c: Context, script: nat -> StreamReply)
    requires StreamResult(c, script).Finished? || StreamResult(c, script).PassedThrough?
    ensures StreamResult(c, script).reported
         == Sums(AllReports(StreamHops(script), HopsUsed(StreamEnd(c, script))))
  {
    hide StreamEnd, Accumulated, PublicOutput, Runs, HadTool, Sums, AllReports, LastCompleted;
    AccumulatedIsSum(StreamHops(script), HopsUsed(StreamEnd(c, script)));
  }

  function ReportOf(r: JsonReply): Option<Tokens> {
    if r.JsonReply? && r.body.Some? then r.body.value.usage else None
  }

  /** Without streaming, the j-th answered request of a keyed client leaves exactly the event of its own raw
      report, under its own request id. */
  lemma {:induction false} JsonBillsExactly(c: Context, script: nat -> JsonReply, k: nat)
    requires c.keyed && forall j :: 0 <= j < k ==> script(j).JsonReply?
    ensures |JsonBilled(c, script, k)| == k
    ensures forall j :: 0 <= j < k ==>
              JsonBilled(c, script, k)[j] == EventFor(c, script(j).requestId, ReportOf(script(j)), false)
  {
    hide EventFor, Bill;
    if k > 0 {
      JsonBillsExactly(c, script, k - 1);
      BillExactly(c, script(k - 1).requestId, ReportOf(script(k - 1)), false);
    }
  }

  lemma {:induction false} NothingBilledWithoutKey(c: Context, script: nat -> JsonReply, k: nat)
    requires !c.keyed
    ensures JsonBilled(c, script, k) == []
  {
    if k > 0 {
      NothingBilledWithoutKey(c, script, k - 1);
    }
  }

  /** With streaming, the bills of one hop are exactly the events of its raw reports, in order. */
  lemma {:induction false} BillAllExactly(c: Context, requestId: string, usages: seq<Option<Tokens>>)
    ensures |BillAll(c, requestId, usages)| == if c.keyed then |usages| else 0
    ensures c.keyed ==>
              forall j :: 0 <= j < |usages| ==>
                BillAll(c, requestId, usages)[j] == EventFor(c, requestId, usages[j], true)
  {
    hide EventFor, Bill;
    if usages != [] {
      BillAllExactly(c, requestId, Front(usages));
      BillExactly(c, requestId, Last(usages), true);
    }
  }

  // ---- Output conservation in both loops ----

  /** What the client finally gets without streaming is everything the model produced, each built-in call
      replaced in place by its own execution. */
  lemma JsonOutputConserved(c: Context, script: nat -> JsonReply)
    requires JsonFinal(JsonResult(c, script)).Some?
    ensures JsonFinal(JsonResult(c, script)).value.0
         == PublicItems(c.tool, 0, AllOutput(JsonHops(script), JsonEnd(c, script) + 1))
  {
    hide JsonEnd, PublicOutput, PublicItems, AllOutput, Accumulated, Calls, Runs;
    var n, hops := JsonEnd(c, script), JsonHops(script);
    OutputConserved(c, hops, n + 1);
    if Calls(c.tool, hops(n).output) == [] {
      PublicWithoutCalls(c, hops, n);
    }
  }

  /** With streaming it is the same, unless the last hop contains a built-in call but never showed the tool in
      use. */
  lemma StreamOutputConserved(c: Context, script: nat -> StreamReply)
    requires StreamFinal(c, script).Some?
    requires var n := StreamEnd(c, script);
             Calls(c.tool, StreamHops(script)(n).output) == []
             || (script(n).StreamReply? && HadTool(c, script(n).events))
    ensures StreamFinal(c, script).value.0
         == PublicItems(c.tool, 0, AllOutput(StreamHops(script), StreamEnd(c, script) + 1))
  {
    hide StreamEnd, PublicOutput, PublicItems, AllOutput, Accumulated, Calls, Runs, HadTool, LastCompleted, Ran;
    var n, hops := StreamEnd(c, script), StreamHops(script);
    OutputConserved(c, hops, n + 1);
    if Calls(c.tool, hops(n).output) == [] {
      PublicWithoutCalls(c, hops, n);
    }
  }

  // ---- The streaming loop refines the other one ----

  /** The stream carries the same successful response: its last event says so, it reports usage once, and
      it announces a built-in call exactly when the response contains one. */
  predicate Corresponds(c: Context, j: JsonReply, s: StreamReply) {
    && j.JsonReply? && j.status < 400 && j.body.Some?
    && s.StreamReply? && s.status < 400 && s.intact
    && s.requestId == j.requestId
    && LastCompleted(s.events) == j.body
    && ReportedUsages(s.events) == [j.body.value.usage]
    && (HadTool(c, s.events) <==> Calls(c.tool, j.body.value.output) != [])
  }

  /** The first n replies do. */
  predicate AllCorrespond(c: Context, js: nat -> JsonReply, ss: nat -> StreamReply, n: nat) {
    n > 0 ==> AllCorrespond(c, js, ss, n - 1) && Corresponds(c, js(n - 1), ss(n - 1))
  }

  lemma {:induction false} CorrespondUpTo(c: Context, js: nat -> JsonReply, ss: nat -> StreamReply, k: nat, n: nat)
    requires k <= n && AllCorrespond(c, js, ss, n)
    ensures AllCorrespond(c, js, ss, k)
  {
    hide Corresponds;
    if k < n {
      CorrespondUpTo(c, js, ss, k, n - 1);
    }
  }

  lemma {:induction false} SameHops(c: Context, js: nat -> JsonReply, ss: nat -> StreamReply, k: nat)
    requires AllCorrespond(c, js, ss, k)
    ensures Ran(c.tool, StreamHops(ss), k) == Ran(c.tool, JsonHops(js), k)
    ensures Transcript(c, StreamHops(ss), k) == Transcript(c, JsonHops(js), k)
    ensures PublicOutput(c, StreamHops(ss), k) == PublicOutput(c, JsonHops(js), k)
    ensures Accumulated(StreamHops(ss), k) == Accumulated(JsonHops(js), k)
  {
    hide Calls, HadTool, LastCompleted, ReportedUsages, PublicItems, ReplayItems, AccumulateAll, Corresponds;
    if k > 0 {
      SameHops(c, js, ss, k - 1);
      SameHop(c, js, ss, k - 1);
    }
  }

  lemma SameHop(c: Context, js: nat -> JsonReply, ss: nat -> StreamReply, k: nat)
    requires Corresponds(c, js(k), ss(k))
    ensures StreamHops(ss)(k) == JsonHops(js)(k)
  {
    hide HadTool, Calls, LastCompleted, ReportedUsages;
  }

  lemma SameDecision(c: Context, js: nat -> JsonReply, ss: nat -> StreamReply, k: nat)
    requires AllCorrespond(c, js, ss, k + 1)
    ensures StreamGoing(c, ss)(k) == JsonGoing(c, js)(k)
  {
    hide HadTool, Calls, LastCompleted, ReportedUsages, Runs, HasUserCall, Ran;
    SameHop(c, js, ss, k);
    SameHops(c, js, ss, k);
  }

  function Streamed(billed: seq<BillingEvent>): seq<BillingEvent> {
    seq(|billed|, i requires 0 <= i < |billed| => billed[i].(streaming := true))
  }

  lemma {:induction false} SameBills(c: Context, js: nat -> JsonReply, ss: nat -> StreamReply, k: nat)
    requires AllCorrespond(c, js, ss, k)
    ensures StreamBilled(c, ss, k) == Streamed(JsonBilled(c, js, k))
  {
    hide HadTool, Calls, LastCompleted, ReportedUsages;
    if k > 0 {
      SameBills(c, js, ss, k - 1);
      SameHop(c, js, ss, k - 1);
      var j, s := js(k - 1), ss(k - 1);
      assert BillAll(c, s.requestId, [j.body.value.usage]) == Bill(c, s.requestId, j.body.value.usage, true) by {
        assert Front([j.body.value.usage]) == [];
      }
    }
  }

  /** The final output the client sees, with the usage reported for it; None when the run failed. */
  function JsonFinal(o: JsonOutcome): Option<(seq<Item>, Tokens)> {
    match o
    case Forwarded(r, Some(u)) => if r.JsonReply? && r.body.Some? then Some((r.body.value.output, u)) else None
    case Answered(response, u) => Some((response.output, u))
    case _ => None
  }

  function StreamFinal(c: Context, script: nat -> StreamReply): Option<(seq<Item>, Tokens)> {
    match StreamResult(c, script)
    case PassedThrough(u) =>
      var r := script(StreamEnd(c, script));
      if r.StreamReply? && LastCompleted(r.events).Some? then Some((LastCompleted(r.events).value.output, u)) else None
    case Finished(response, u) => Some((response.output, u))
    case _ => None
  }

  lemma {:induction false} NoCallBefore(tool: Tool, items: seq<Item>, i: nat)
    requires i <= |items| && CallsUpTo(tool, items, i) == []
    ensures forall p :: 0 <= p < i ==> !IsBuiltinCall(tool, items[p])
  {
    if i > 0 {
      NoCallBefore(tool, items, i - 1);
    }
  }

  lemma NoCallsNothingReplaced(tool: Tool, ran: nat, items: seq<Item>)
    requires Calls(tool, items) == []
    ensures PublicItems(tool, ran, items) == items && Runs(tool, ran, items)
  {
    NoCallBefore(tool, items, |items|);
  }

  /** The two loops give corresponding answers at the hop where they end. */
  lemma SameAnswer(c: Context, js: nat -> JsonReply, ss: nat -> StreamReply, n: nat)
    requires n == StreamEnd(c, ss) == JsonEnd(c, js) && n < MAX_TOOL_ITERATIONS
    requires AllCorrespond(c, js, ss, n + 1)
    ensures StreamFinal(c, ss) == JsonFinal(JsonResult(c, js))
    ensures StreamResult(c, ss).StreamError? <==> JsonResult(c, js).BadGateway?
    ensures !StreamResult(c, ss).Crashed? && !StreamResult(c, ss).ErrorForwarded? && !JsonResult(c, js).JsonCrashed?
  {
    hide HadTool, Calls, LastCompleted, ReportedUsages, Runs, HasUserCall, PublicItems, PublicOutput, Accumulated,
         StreamEnd, JsonEnd, StreamGoesOn, JsonGoesOn, Transcript, Ran;
    SameHop(c, js, ss, n);
    SameHops(c, js, ss, n);
    SameHops(c, js, ss, n + 1);
    if Calls(c.tool, js(n).body.value.output) == [] {
      PublicWithoutCalls(c, JsonHops(js), n);
    }
  }

  lemma PublicWithoutCalls(c: Context, hops: nat -> Hop, n: nat)
    requires Calls(c.tool, hops(n).output) == []
    ensures Runs(c.tool, Ran(c.tool, hops, n), hops(n).output)
    ensures PublicOutput(c, hops, n + 1) == PublicOutput(c, hops, n) + hops(n).output
    ensures PublicOutput(c, hops, n) == [] ==> PublicOutput(c, hops, n + 1) == hops(n).output
  {
    hide Calls, PublicItems, Runs;
    NoCallsNothingReplaced(c.tool, Ran(c.tool, hops, n), hops(n).output);
  }

  lemma {:induction false} BothGoOn(c: Context, js: nat -> JsonReply, ss: nat -> StreamReply, k: nat)
    requires AllCorrespond(c, js, ss, k) && AllGo(JsonGoing(c, js), k)
    ensures AllGo(StreamGoing(c, ss), k)
  {
    hide Corresponds, JsonGoesOn, StreamGoesOn;
    if k > 0 {
      BothGoOn(c, js, ss, k - 1);
      SameDecision(c, js, ss, k - 1);
    }
  }

  lemma EndTogether(c: Context, js: nat -> JsonReply, ss: nat -> StreamReply)
    requires AllCorrespond(c, js, ss, HopsUsed(JsonEnd(c, js)))
    ensures StreamEnd(c, ss) == JsonEnd(c, js)
  {
    hide Corresponds, JsonGoesOn, StreamGoesOn, AllGo, AllCorrespond;
    var n := JsonEnd(c, js);
    StopReached(JsonGoing(c, js), 0);
    CorrespondUpTo(c, js, ss, n, HopsUsed(n));
    BothGoOn(c, js, ss, n);
    if n < MAX_TOOL_ITERATIONS {
      SameDecision(c, js, ss, n);
    }
    StopsAt(StreamGoing(c, ss), n);
  }

  lemma SameRequests(c: Context, js: nat -> JsonReply, ss: nat -> StreamReply, n: nat)
    requires AllCorrespond(c, js, ss, n)
    ensures Requests(c, StreamHops(ss), n) == Requests(c, JsonHops(js), n)
  {
    hide AllCorrespond, Transcript, StreamHops, JsonHops;
    forall i | 0 <= i < n
      ensures Transcript(c, StreamHops(ss), i) == Transcript(c, JsonHops(js), i)
    {
      CorrespondUpTo(c, js, ss, i, n);
      SameHops(c, js, ss, i);
    }
  }

  /** Refinement: when the streams, up to the end of the run, announce exactly the calls that the responses
      contain, the streaming loop sends the same requests, bills the same, and ends with the same output and
      usage, or fails when the other one fails, or hits the iteration limit when the other one does. */
  lemma StreamRefinesJson(c: Context, js: nat -> JsonReply, ss: nat -> StreamReply)
    requires AllCorrespond(c, js, ss, HopsUsed(JsonEnd(c, js)))
    ensures StreamEnd(c, ss) == JsonEnd(c, js)
    ensures var n := HopsUsed(JsonEnd(c, js));
            && Requests(c, StreamHops(ss), n) == Requests(c, JsonHops(js), n)
            && StreamBilled(c, ss, n) == Streamed(JsonBilled(c, js, n))
    ensures StreamFinal(c, ss) == JsonFinal(JsonResult(c, js))
    ensures StreamResult(c, ss).StreamError? <==> JsonResult(c, js).BadGateway?
    ensures StreamResult(c, ss).StreamIterationsExceeded? <==> JsonResult(c, js).IterationsExceeded?
    ensures !StreamResult(c, ss).Crashed? && !StreamResult(c, ss).ErrorForwarded? && !JsonResult(c, js).JsonCrashed?
  {
    EndTogether(c, js, ss);
    var end := JsonEnd(c, js);
    SameRequests(c, js, ss, HopsUsed(end));
    SameBills(c, js, ss, HopsUsed(end));
    if end < MAX_TOOL_ITERATIONS {
      SameAnswer(c, js, ss, end);
      AnswersBeforeLimit(c, js, ss, end);
    } else {
      SameLimit(c, js, ss);
    }
    hide *;
  }

  lemma AnswersBeforeLimit(c: Context, js: nat -> JsonReply, ss: nat -> StreamReply, n: nat)
    requires n == StreamEnd(c, ss) == JsonEnd(c, js) && n < MAX_TOOL_ITERATIONS
    ensures !StreamResult(c, ss).StreamIterationsExceeded? && !JsonResult(c, js).IterationsExceeded?
  {
    hide StreamEnd, JsonEnd;
  }

  lemma SameLimit(c: Context, js: nat -> JsonReply, ss: nat -> StreamReply)
    requires StreamEnd(c, ss) == JsonEnd(c, js) == MAX_TOOL_ITERATIONS
    ensures StreamResult(c, ss) == StreamIterationsExceeded && JsonResult(c, js) == IterationsExceeded
    ensures StreamFinal(c, ss) == None && JsonFinal(JsonResult(c, js)) == None
  {
    hide StreamEnd, JsonEnd, StreamStop, JsonStop;
  }
}
