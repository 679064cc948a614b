/** The tool loop without streaming (openaiapi/responses_runner.go, handleResponsesJSON). */
module ResponsesJson {
  import opened Text
  import opened Usage
  import opened ResponsesModel

  datatype JsonOutcome =
    | BadGateway
    | JsonCrashed
    | Forwarded(reply: JsonReply, usageHeader: Option<Tokens>)
    | Answered(response: Response, reported: Tokens)
    | IterationsExceeded

  function JsonHop(reply: JsonReply): Hop {
    if reply.JsonReply? then
      Hop(if reply.body.Some? then reply.body.value.output else [],
          [if reply.body.Some? then reply.body.value.usage else None])
    else
      Hop([], [])
  }

  function JsonHops(script: nat -> JsonReply): nat -> Hop {
    (k: nat) => JsonHop(script(k))
  }

  /** Hop k leads to another request: it only calls the built-in tool, at least once, and all calls run. */
  predicate JsonGoesOn(c: Context, script: nat -> JsonReply, k: nat) {
    var r := script(k);
    && r.JsonReply? && r.status < 400 && r.body.Some?
    && Calls(c.tool, r.body.value.output) != []
    && Runs(c.tool, Ran(c.tool, JsonHops(script), k), r.body.value.output)
    && !HasUserCall(c.tool, r.body.value.output)
  }

  function JsonGoing(c: Context, script: nat -> JsonReply): nat -> bool {
    (k: nat) => JsonGoesOn(c, script, k)
  }

  /** What the client gets when hop n is the last one. */
  function JsonStop(c: Context, script: nat -> JsonReply, n: nat): JsonOutcome {
    var r, hops := script(n), JsonHops(script);
    if !r.JsonReply? then BadGateway
    else if r.status >= 400 then Forwarded(r, None)
    else if r.body.None? then
      if !r.isNull then BadGateway
      else if r.typed && PublicOutput(c, hops, n) == [] then Forwarded(r, Some(Accumulated(hops, n + 1)))
      else JsonCrashed
    else
      var output := r.body.value.output;
      if r.typed && PublicOutput(c, hops, n) == [] && Calls(c.tool, output) == [] then
        Forwarded(r, Some(Accumulated(hops, n + 1)))
      else if !Runs(c.tool, Ran(c.tool, hops, n), output) then BadGateway
      else
        var usage := Accumulated(hops, n + 1);
        Answered(r.body.value.(output := PublicOutput(c, hops, n + 1), usage := Some(usage)), usage)
  }

  function JsonBilled(c: Context, script: nat -> JsonReply, k: nat): seq<BillingEvent> {
    if k == 0 then []
    else
      var r := script(k - 1);
      JsonBilled(c, script, k - 1)
      + (if r.JsonReply? then Bill(c, r.requestId, if r.body.Some? then r.body.value.usage else None, false)
         else [])
  }

  /** The hop at which the run ends. */
  function JsonEnd(c: Context, script: nat -> JsonReply): nat {
    FirstStop(JsonGoing(c, script), 0)
  }

  function JsonResult(c: Context, script: nat -> JsonReply): JsonOutcome {
    var n := JsonEnd(c, script);
    if n < MAX_TOOL_ITERATIONS then JsonStop(c, script, n) else IterationsExceeded
  }

  /** One round trip upstream: what it sends, what it bills and what it adds to the usage. */
  method AskOnce(c: Context, invoker: UpstreamInvoker<JsonReply>, usage: UsageAccumulator, input: seq<Item>,
                 ghost k: nat)
    returns (reply: JsonReply)
    requires invoker.context == c
    requires invoker.sent == Requests(c, JsonHops(invoker.script), k)
    requires invoker.billed == JsonBilled(c, invoker.script, k)
    requires input == Transcript(c, JsonHops(invoker.script), k)
    requires usage.ToUsage() == Accumulated(JsonHops(invoker.script), k)
    modifies invoker, usage
    ensures reply == invoker.script(k)
    ensures invoker.sent == Requests(c, JsonHops(invoker.script), k + 1)
    ensures invoker.billed == JsonBilled(c, invoker.script, k + 1)
    ensures usage.ToUsage() == Accumulated(JsonHops(invoker.script), k + 1)
  {
    hide Requests, Transcript;
    ghost var before := usage.ToUsage();
    RequestsGrow(c, JsonHops(invoker.script), k);
    reply := invoker.Do(RequestBody(input, c.rest));
    if reply.JsonReply? {
      var currentUsage := if reply.body.Some? then reply.body.value.usage else None;
      usage.Add(currentUsage);
      AccumulateOne(before, currentUsage);
      invoker.RecordUsage(reply.requestId, currentUsage, false);
    }
  }

  /** Decides what one reply leads to: an answer for the client, or the results for the next request. */
  method Settle(c: Context, reply: JsonReply, executions: nat, publicSoFar: seq<Item>, usage: Tokens,
                ghost script: nat -> JsonReply, ghost k: nat)
    returns (stop: Option<JsonOutcome>, publicOutput: seq<Item>, replayItems: seq<Item>)
    requires reply == script(k)
    requires executions == Ran(c.tool, JsonHops(script), k)
    requires publicSoFar == PublicOutput(c, JsonHops(script), k)
    requires usage == Accumulated(JsonHops(script), k + 1)
    ensures stop.None? <==> JsonGoesOn(c, script, k)
    ensures stop.Some? ==> stop.value == JsonStop(c, script, k)
    ensures stop.None? ==>
              && publicOutput == PublicOutput(c, JsonHops(script), k + 1)
              && replayItems == ReplayItems(c.tool, executions, reply.body.value.output)
  {
    ghost var hops := JsonHops(script);
    assert hops(k) == JsonHop(reply);
    publicOutput, replayItems := publicSoFar, [];
    if !reply.JsonReply? {
      return Some(BadGateway), publicOutput, [];
    }
    if reply.status >= 400 {
      return Some(Forwarded(reply, None)), publicOutput, [];
    }
    var output := if reply.body.Some? then reply.body.value.output else [];
    if reply.typed && (reply.body.Some? || reply.isNull) && publicSoFar == [] && Calls(c.tool, output) == [] {
      return Some(Forwarded(reply, Some(usage))), publicOutput, [];
    }
    if reply.body.None? {
      if reply.isNull {
        // The handler writes into the missing payload.
        return Some(JsonCrashed), publicOutput, [];
      }
      return Some(BadGateway), publicOutput, [];
    }
    var response := reply.body.value;
    var processed := ProcessOutput(c.tool, executions, response.output);
    if processed.None? {
      return Some(BadGateway), publicOutput, [];
    }
    publicOutput := publicSoFar + processed.value.publicItems;
    assert publicOutput == PublicOutput(c, hops, k + 1);
    if !processed.value.executedAny {
      if publicOutput != [] {
        response := response.(output := publicOutput);
      }
      return Some(Answered(response.(usage := Some(usage)), usage)), publicOutput, [];
    }
    if processed.value.mixedWithUserTools {
      return Some(Answered(response.(output := publicOutput, usage := Some(usage)), usage)), publicOutput, [];
    }
    return None, publicOutput, processed.value.replayItems;
  }

  /** The twelve-hop loop: its requests, bills and answer are those of the first n hops, where hop n is
      the first that does not go on. */
  method HandleResponsesJson(c: Context, invoker: UpstreamInvoker<JsonReply>) returns (outcome: JsonOutcome)
    requires invoker.context == c && invoker.sent == [] && invoker.billed == []
    modifies invoker
    ensures outcome == JsonResult(c, invoker.script)
    ensures invoker.sent == Requests(c, JsonHops(invoker.script), HopsUsed(JsonEnd(c, invoker.script)))
    ensures invoker.billed == JsonBilled(c, invoker.script, HopsUsed(JsonEnd(c, invoker.script)))
  {
    hide JsonStop, Requests, Runs, HasUserCall, Transcript, Ran, PublicOutput, Accumulated, Calls, ReplayItems;
    ghost var script, hops := invoker.script, JsonHops(invoker.script);
    BeforeFirstHop(c, hops);
    var internalInput := EnsureInputItems(c.input);
    var publicOutput := [];
    var usage := new UsageAccumulator();
    var executions := 0;

    for k := 0 to MAX_TOOL_ITERATIONS
      invariant fresh(usage)
      invariant AllGo(JsonGoing(c, script), k)
      invariant executions == Ran(c.tool, hops, k)
      invariant internalInput == Transcript(c, hops, k)
      invariant publicOutput == PublicOutput(c, hops, k)
      invariant usage.ToUsage() == Accumulated(hops, k)
      invariant invoker.sent == Requests(c, hops, k)
      invariant invoker.billed == JsonBilled(c, script, k)
    {
      var reply := AskOnce(c, invoker, usage, internalInput, k);
      var stop, newPublic, replayItems :=
        Settle(c, reply, executions, publicOutput, usage.ToUsage(), script, k);
      if stop.Some? {
        StopsAt(JsonGoing(c, script), k);
        return stop.value;
      }
      assert hops(k) == JsonHop(reply);
      AfterHop(c, hops, k);
      publicOutput := newPublic;
      executions := executions + |Calls(c.tool, reply.body.value.output)|;
      internalInput := internalInput + reply.body.value.output;
      internalInput := internalInput + replayItems;
    }
    StopsAt(JsonGoing(c, script), MAX_TOOL_ITERATIONS);
    outcome := IterationsExceeded;
  }

  lemma AccumulateOne(acc: Tokens, usage: Option<Tokens>)
    ensures AccumulateAll(acc, [usage]) == Accumulate(acc, usage)
  {
    assert AccumulateAll(acc, [usage][..0]) == acc;
  }
}
