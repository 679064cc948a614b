/** When a tool loop asks again, when it stops and what it answers then, said in terms of the replies alone. */
module ResponsesDecisions {
  import opened Text
  import opened Usage
  import opened ResponsesModel
  import opened ResponsesJson
  import opened ResponsesStream
  import opened ResponsesTranscript
  import opened ResponsesRefinement
  import opened ResponsesEvents
  import opened ResponsesLeaks
  import opened ResponsesForwarding

  predicate CallsTool(tool: Tool, item: Item) {
    item.FunctionCall? && tool.isNamed(item.name)
  }

  predicate SomeToolCall(tool: Tool, items: seq<Item>) {
    exists p :: 0 <= p < |items| && CallsTool(tool, items[p])
  }

  /** A call that is for the client to execute. */
  predicate SomeUserCall(tool: Tool, items: seq<Item>) {
    exists p :: 0 <= p < |items| && items[p].FunctionCall? && !CallsTool(tool, items[p])
  }

  /** How many built-in calls are among the first p items. */
  function ToolCallsBefore(tool: Tool, items: seq<Item>, p: nat): nat
    requires p <= |items|
  {
    if p == 0 then 0 else ToolCallsBefore(tool, items, p - 1) + if CallsTool(tool, items[p - 1]) then 1 else 0
  }

  predicate GivesBoth(e: Execution) {
    e.Executed? && e.public.Some? && e.replay.Some?
  }

  /** Every built-in call among the items gives a public item and an answer; the executions of the client
      request are numbered through, `ran` of them before these items. */
  predicate EachExecutes(tool: Tool, ran: nat, items: seq<Item>) {
    forall p :: 0 <= p < |items| && CallsTool(tool, items[p]) ==>
      GivesBoth(tool.execute(ran + ToolCallsBefore(tool, items, p), items[p]))
  }

  /** The built-in calls in all output of the first k hops. */
  function ToolCallsUpTo(tool: Tool, hops: nat -> Hop, k: nat): nat {
    if k == 0 then 0
    else ToolCallsUpTo(tool, hops, k - 1) + ToolCallsBefore(tool, hops(k - 1).output, |hops(k - 1).output|)
  }

  lemma {:induction false} CallsAreCounted(tool: Tool, items: seq<Item>, p: nat)
    requires p <= |items|
    ensures |CallsUpTo(tool, items, p)| == ToolCallsBefore(tool, items, p)
  {
    if p > 0 {
      CallsAreCounted(tool, items, p - 1);
    }
  }

  lemma {:induction false} RanIsCounted(tool: Tool, hops: nat -> Hop, k: nat)
    ensures Ran(tool, hops, k) == ToolCallsUpTo(tool, hops, k)
  {
    hide CallsUpTo, ToolCallsBefore;
    if k > 0 {
      RanIsCounted(tool, hops, k - 1);
      CallsAreCounted(tool, hops(k - 1).output, |hops(k - 1).output|);
    }
  }

  lemma RunsExactly(tool: Tool, ran: nat, items: seq<Item>)
    ensures Runs(tool, ran, items) <==> EachExecutes(tool, ran, items)
  {
    hide CallsUpTo, ToolCallsBefore;
    forall p | 0 <= p < |items| ensures |CallsUpTo(tool, items, p)| == ToolCallsBefore(tool, items, p) {
      CallsAreCounted(tool, items, p);
    }
  }

  lemma CallsExactly(tool: Tool, items: seq<Item>)
    ensures Calls(tool, items) != [] <==> SomeToolCall(tool, items)
  {
    hide CallsUpTo;
    if Calls(tool, items) != [] {
      var p := SomeCallIn(tool, items);
      assert CallsTool(tool, items[p]);
    }
    if p :| 0 <= p < |items| && CallsTool(tool, items[p]) {
      CallMakesCalls(tool, items, |items|, p);
    }
  }

  lemma {:induction false} UserCallExactly(tool: Tool, items: seq<Item>, i: nat)
    requires i <= |items|
    ensures UserCallUpTo(tool, items, i) <==>
              exists p :: 0 <= p < i && items[p].FunctionCall? && !CallsTool(tool, items[p])
  {
    if i > 0 {
      UserCallExactly(tool, items, i - 1);
    }
  }

  // ---- When a loop asks again ----

  /** The reply only calls the built-in tool, at least once, and all its calls execute. */
  predicate AsksAgain(c: Context, script: nat -> JsonReply, k: nat) {
    && script(k).JsonReply? && script(k).status < 400 && script(k).body.Some?
    && SomeToolCall(c.tool, script(k).body.value.output) && !SomeUserCall(c.tool, script(k).body.value.output)
    && EachExecutes(c.tool, ToolCallsUpTo(c.tool, JsonHops(script), k), script(k).body.value.output)
  }

  lemma JsonGoesOnExactly(c: Context, script: nat -> JsonReply, k: nat)
    ensures JsonGoesOn(c, script, k) <==> AsksAgain(c, script, k)
  {
    hide CallsUpTo, Calls, UserCallUpTo, SomeToolCall, EachExecutes, Runs, Ran, ToolCallsUpTo;
    if script(k).JsonReply? && script(k).body.Some? {
      var output := script(k).body.value.output;
      CallsExactly(c.tool, output);
      UserCallExactly(c.tool, output, |output|);
      RanIsCounted(c.tool, JsonHops(script), k);
      RunsExactly(c.tool, Ran(c.tool, JsonHops(script), k), output);
    }
  }

  function OutputOf(r: StreamReply): seq<Item> {
    if r.StreamReply? && r.status < 400 && LastCompleted(r.events).Some? then LastCompleted(r.events).value.output
    else []
  }

  predicate SomeUse(tool: Tool, es: seq<Event>) {
    exists i :: 0 <= i < |es| && ShowsUse(tool, es[..i], es[i])
  }

  /** The stream was read to its end and shows the tool in use, its last completion has no call for the client,
      and all its built-in calls execute. */
  predicate StreamAsksAgain(c: Context, script: nat -> StreamReply, k: nat) {
    && script(k).StreamReply? && script(k).status < 400 && script(k).intact
    && SomeUse(c.tool, script(k).events) && !SomeUserCall(c.tool, OutputOf(script(k)))
    && EachExecutes(c.tool, ToolCallsUpTo(c.tool, StreamHops(script), k), OutputOf(script(k)))
  }

  lemma StreamGoesOnExactly(c: Context, script: nat -> StreamReply, k: nat)
    ensures StreamGoesOn(c, script, k) <==> StreamAsksAgain(c, script, k)
  {
    hide CallsUpTo, Calls, UserCallUpTo, EachExecutes, Runs, Ran, ToolCallsUpTo, HadTool, ShowsUse, LastCompleted;
    var output := StreamHops(script)(k).output;
    assert output == OutputOf(script(k));
    UserCallExactly(c.tool, output, |output|);
    RanIsCounted(c.tool, StreamHops(script), k);
    RunsExactly(c.tool, Ran(c.tool, StreamHops(script), k), output);
    if script(k).StreamReply? {
      UsesToolExactly(c, script(k).events);
    }
  }

  /** A run without streaming sends one request after the other as long as the replies only call the built-in
      tool, and never more than twelve. */
  lemma JsonAsksExactly(c: Context, script: nat -> JsonReply)
    ensures forall k: nat :: k < JsonEnd(c, script) ==> AsksAgain(c, script, k)
    ensures JsonEnd(c, script) < 12 ==> !AsksAgain(c, script, JsonEnd(c, script))
    ensures 1 <= |Requests(c, JsonHops(script), HopsUsed(JsonEnd(c, script)))| <= 12
    ensures JsonResult(c, script).IterationsExceeded? <==> forall k: nat :: k < 12 ==> AsksAgain(c, script, k)
  {
    hide JsonEnd, JsonStop, AsksAgain, JsonGoesOn, Transcript;
    var n := JsonEnd(c, script);
    StopReached(JsonGoing(c, script), 0);
    JsonEndReached(c, script);
    JsonEndAtMost(c, script);
    EachGoes(JsonGoing(c, script), n);
    forall k: nat ensures JsonGoing(c, script)(k) == AsksAgain(c, script, k) {
      JsonGoesOnExactly(c, script, k);
    }
    StopIsNotTheLimit(c, script);
  }

  lemma JsonEndAtMost(c: Context, script: nat -> JsonReply)
    ensures JsonEnd(c, script) <= 12
    ensures JsonEnd(c, script) < 12 ==> !JsonGoing(c, script)(JsonEnd(c, script))
  {
    StopReached(JsonGoing(c, script), 0);
  }

  lemma StopIsNotTheLimit(c: Context, script: nat -> JsonReply)
    ensures JsonResult(c, script).IterationsExceeded? <==> JsonEnd(c, script) == 12
  {
    hide Runs, PublicOutput, Accumulated;
  }

  /** And so does a streaming run. */
  lemma StreamAsksExactly(c: Context, script: nat -> StreamReply)
    ensures forall k: nat :: k < StreamEnd(c, script) ==> StreamAsksAgain(c, script, k)
    ensures StreamEnd(c, script) < 12 ==> !StreamAsksAgain(c, script, StreamEnd(c, script))
    ensures 1 <= |Requests(c, StreamHops(script), HopsUsed(StreamEnd(c, script)))| <= 12
    ensures StreamResult(c, script).StreamIterationsExceeded?
            <==> forall k: nat :: k < 12 ==> StreamAsksAgain(c, script, k)
  {
    hide StreamEnd, StreamStop, StreamAsksAgain, StreamGoesOn, Transcript;
    var n := StreamEnd(c, script);
    EndReached(c, script);
    StreamEndAtMost(c, script);
    EachGoes(StreamGoing(c, script), n);
    forall k: nat ensures StreamGoing(c, script)(k) == StreamAsksAgain(c, script, k) {
      StreamGoesOnExactly(c, script, k);
    }
    StreamStopIsNotTheLimit(c, script);
  }

  lemma StreamEndAtMost(c: Context, script: nat -> StreamReply)
    ensures StreamEnd(c, script) <= 12
    ensures StreamEnd(c, script) < 12 ==> !StreamGoing(c, script)(StreamEnd(c, script))
  {
    StopReached(StreamGoing(c, script), 0);
  }

  lemma StreamStopIsNotTheLimit(c: Context, script: nat -> StreamReply)
    ensures StreamResult(c, script).StreamIterationsExceeded? <==> StreamEnd(c, script) == 12
  {
    hide Runs, PublicOutput, Accumulated, HadTool, LastCompleted;
  }

  // ---- What is asked ----

  /** The first request carries the client's input as a list of items, and all requests the other fields of the
      prepared body. */
  lemma RequestsStartFromClient(c: Context, hops: nat -> Hop, n: nat)
    requires n > 0
    ensures |Requests(c, hops, n)| == n && forall i :: 0 <= i < n ==> Requests(c, hops, n)[i].rest == c.rest
    ensures c.input.NoInput? ==> Requests(c, hops, n)[0].input == []
    ensures c.input.TextInput? ==> Requests(c, hops, n)[0].input == [UserMessage(c.input.text)]
    ensures c.input.ItemsInput? ==> Requests(c, hops, n)[0].input == c.input.items
    ensures c.input.SingleInput? ==> Requests(c, hops, n)[0].input == [c.input.item]
  {
    assert Transcript(c, hops, 0) == EnsureInputItems(c.input);
  }

  // ---- What is answered ----

  /** The reply goes to the client as it is: nothing is public yet and it calls no built-in tool. */
  predicate PassesOn(c: Context, script: nat -> JsonReply, n: nat) {
    && script(n).JsonReply? && script(n).typed && PublicOutput(c, JsonHops(script), n) == []
    && (if script(n).body.Some? then !SomeToolCall(c.tool, script(n).body.value.output) else script(n).isNull)
  }

  /** How a run without streaming ends, by its last reply. */
  lemma JsonOutcomeExactly(c: Context, script: nat -> JsonReply)
    requires JsonEnd(c, script) < 12
    ensures var n := JsonEnd(c, script);
            var r, o := script(n), JsonResult(c, script);
            && (o.Forwarded? <==> r.JsonReply? && (r.status >= 400 || PassesOn(c, script, n)))
            && (o.Forwarded? ==> o.reply == r && (o.usageHeader.None? <==> r.status >= 400))
            && (o.BadGateway? <==>
                  !r.JsonReply?
                  || (r.status < 400 && r.body.None? && !r.isNull)
                  || (r.status < 400 && r.body.Some?
                      && !EachExecutes(c.tool, ToolCallsUpTo(c.tool, JsonHops(script), n), r.body.value.output)))
            && (o.Answered? ==>
                  && r.JsonReply? && r.body.Some? && o.response.rest == r.body.value.rest
                  && o.response.usage == Some(o.reported))
  {
    hide JsonEnd, Runs, Ran, Calls, PublicOutput, Accumulated, EachExecutes, SomeToolCall, ToolCallsUpTo;
    var n := JsonEnd(c, script);
    if script(n).JsonReply? && script(n).body.Some? {
      var output := script(n).body.value.output;
      CallsExactly(c.tool, output);
      RanIsCounted(c.tool, JsonHops(script), n);
      RunsExactly(c.tool, Ran(c.tool, JsonHops(script), n), output);
      if Calls(c.tool, output) == [] {
        NoCallsNothingReplaced(c.tool, Ran(c.tool, JsonHops(script), n), output);
      }
    }
  }

  /** How a streaming run ends, by its last reply. */
  lemma StreamOutcomeExactly(c: Context, script: nat -> StreamReply)
    requires StreamEnd(c, script) < 12
    ensures var n := StreamEnd(c, script);
            var r, o := script(n), StreamResult(c, script);
            && (o.ErrorForwarded? <==> r.StreamReply? && r.status >= 400)
            && (o.ErrorForwarded? ==> r.StreamReply? && o.status == r.status)
            && (o.StreamError? <==>
                  r.NoStreamReply?
                  || (r.status < 400 && !r.intact)
                  || (r.status < 400 && SomeUse(c.tool, r.events)
                      && !EachExecutes(c.tool, ToolCallsUpTo(c.tool, StreamHops(script), n), OutputOf(r))))
            && (o.PassedThrough? <==>
                  && r.StreamReply? && r.status < 400 && r.intact && !SomeUse(c.tool, r.events)
                  && PublicOutput(c, StreamHops(script), n) == [])
            && (o.Finished? ==>
                  && r.StreamReply? && LastCompleted(r.events).Some?
                  && o.response.rest == LastCompleted(r.events).value.rest && o.response.usage == Some(o.reported))
  {
    hide StreamEnd, Runs, Ran, PublicOutput, Accumulated, EachExecutes, ToolCallsUpTo, HadTool, SomeUse, LastCompleted,
         HasUserCall;
    var n, hops := StreamEnd(c, script), StreamHops(script);
    StreamEndAtMost(c, script);
    assert !StreamGoesOn(c, script, n);
    assert hops(n).output == OutputOf(script(n));
    RanIsCounted(c.tool, hops, n);
    RunsExactly(c.tool, Ran(c.tool, hops, n), hops(n).output);
    if script(n).StreamReply? {
      UseExactly(c, script(n).events);
    }
    if OutputOf(script(n)) == [] {
      assert !HasUserCall(c.tool, []) by {
        NoUserCallInNothing(c.tool);
      }
    }
  }

  lemma UseExactly(c: Context, es: seq<Event>)
    ensures HadTool(c, es) <==> SomeUse(c.tool, es)
  {
    hide HadTool, ShowsUse;
    UsesToolExactly(c, es);
  }

  lemma NoUserCallInNothing(tool: Tool)
    ensures !HasUserCall(tool, [])
  {
  }
}
