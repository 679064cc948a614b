/** Rewriting of the request body on its way to a model server (openaiapi/request.go, openaiapi/plan.go): one
    pipeline on raw fields for the typed endpoints, one on decoded values for all others. */
module Rewriting {
  import opened Text

  /** A decoded field; numbers, strings and arrays are passed on as they are. */
  datatype Value =
    | Null
    | Bool(value: bool)
    | Object(fields: map<string, Value>)
    | Number(n: int)
    | Other(raw: string)

  type Fields = map<string, Value>

  const PRIORITY := "priority"
  const STREAM := "stream"
  const STREAM_OPTIONS := "stream_options"
  const INCLUDE_USAGE := "include_usage"
  const CONTINUOUS := "continuous_usage_stats"

  datatype Kind = ChatCompletions | Responses

  /** The body sent on: the client's bytes, or the encoding of some fields. */
  datatype Body = Original | Encoded(fields: Fields)

  /** `asked` is the header that tells the proxy that the client wants usage in its stream. */
  datatype Outcome = Outcome(body: Body, asked: bool)

  // ---- What the rewriting should do ----

  predicate IsTrue(fields: Fields, key: string) {
    key in fields && fields[key] == Bool(true)
  }

  predicate Streams(fields: Fields) {
    IsTrue(fields, STREAM)
  }

  /** The client's stream options; none if it sent no object. */
  function OptionsOf(fields: Fields): Fields {
    if STREAM_OPTIONS in fields && fields[STREAM_OPTIONS].Object? then fields[STREAM_OPTIONS].fields else map[]
  }

  predicate Asked(fields: Fields) {
    Streams(fields) && (IsTrue(OptionsOf(fields), INCLUDE_USAGE) || IsTrue(OptionsOf(fields), CONTINUOUS))
  }

  predicate Untouched(fields: Fields, demoted: bool) {
    PRIORITY !in fields && !demoted && !Streams(fields)
  }

  /** The reference, field by field: a priority exactly if demoted, and then 1; on a stream the client's options
      plus continuous usage; any other field as it was. */
  ghost predicate Rewrites(before: Fields, demoted: bool, after: Fields) {
    && (PRIORITY in after <==> demoted) && (demoted ==> after[PRIORITY] == Number(1))
    && (Streams(before) ==> STREAM_OPTIONS in after && after[STREAM_OPTIONS].Object?
                            && Continuous(OptionsOf(before), after[STREAM_OPTIONS].fields))
    && forall k :: k != PRIORITY && (k != STREAM_OPTIONS || !Streams(before)) ==> SameAt(before, after, k)
  }

  predicate SameAt(before: Fields, after: Fields, k: string) {
    (k in after <==> k in before) && (k in before ==> after[k] == before[k])
  }

  /** The same options with continuous usage on. */
  ghost predicate Continuous(before: Fields, after: Fields) {
    IsTrue(after, CONTINUOUS) && forall k :: k != CONTINUOUS ==> SameAt(before, after, k)
  }

  /** What both pipelines should send. */
  ghost predicate Serves(before: Fields, demoted: bool, asked: bool, outcome: Outcome) {
    && (outcome.asked <==> asked || Asked(before))
    && (outcome.body.Original? <==> Untouched(before, demoted))
    && (outcome.body.Encoded? ==> Rewrites(before, demoted, outcome.body.fields))
  }

  lemma ContinuousIsUnique(before: Fields, one: Fields, two: Fields)
    requires Continuous(before, one) && Continuous(before, two)
    ensures one == two
  {
    forall k ensures SameAt(one, two, k) {
      if k != CONTINUOUS {
        assert SameAt(before, one, k) && SameAt(before, two, k);
      }
    }
    AllSame(one, two);
  }

  lemma AllSame(one: Fields, two: Fields)
    requires forall k :: SameAt(one, two, k)
    ensures one == two
  {
    assert forall k :: k in one ==> SameAt(one, two, k);
    assert forall k :: k in two ==> SameAt(one, two, k);
    assert one.Keys == two.Keys;
  }

  /** The reference leaves no choice, so pipelines that meet it agree. */
  lemma ServesIsUnique(before: Fields, demoted: bool, asked: bool, one: Outcome, two: Outcome)
    requires Serves(before, demoted, asked, one) && Serves(before, demoted, asked, two)
    ensures one == two
  {
    hide Continuous, Streams, OptionsOf;
    if one.body.Encoded? {
      var a, b := one.body.fields, two.body.fields;
      forall k ensures SameAt(a, b, k) {
        if k != PRIORITY && (k != STREAM_OPTIONS || !Streams(before)) {
          assert SameAt(before, a, k) && SameAt(before, b, k);
        } else if k == STREAM_OPTIONS {
          ContinuousIsUnique(OptionsOf(before), a[k].fields, b[k].fields);
        }
      }
      AllSame(a, b);
    }
  }

  // ---- The typed pipeline ----

  /** A field that must be a boolean, null or absent. */
  function RawBool(fields: Fields, key: string): Option<bool> {
    if key !in fields || fields[key].Null? then Some(false)
    else if fields[key].Bool? then Some(fields[key].value)
    else None
  }

  /** A field that must be an object, null or absent. */
  function RawObjectFields(fields: Fields, key: string): Option<Fields> {
    if key !in fields || fields[key].Null? then Some(map[])
    else if fields[key].Object? then Some(fields[key].fields)
    else None
  }

  predicate RawBoolValue(fields: Fields, key: string) {
    RawBool(fields, key) == Some(true)
  }

  /** What the typed endpoints accept; `decodes` says whether the body decodes into the endpoint's typed
      parameters, and `model` is the model named there. */
  predicate Accepted(fields: Fields, decodes: bool, model: string) {
    decodes && Trim(model) != "" && RawBool(fields, STREAM).Some? && RawObjectFields(fields, STREAM_OPTIONS).Some?
  }

  class Request {
    const kind: Kind
    const stream: bool
    var rawFields: Fields
    var modified: bool
    var clientRequestedStreamingUsage: bool

    constructor (kind: Kind, fields: Fields)
      requires RawBool(fields, STREAM).Some? && RawObjectFields(fields, STREAM_OPTIONS).Some?
      ensures this.kind == kind && (stream <==> Streams(fields)) && rawFields == fields && !modified
      ensures clientRequestedStreamingUsage <==>
                IsTrue(OptionsOf(fields), CONTINUOUS)
                || (kind.ChatCompletions? && IsTrue(OptionsOf(fields), INCLUDE_USAGE))
    {
      this.kind, rawFields, modified := kind, fields, false;
      stream := RawBool(fields, STREAM).value;
      var options := RawObjectFields(fields, STREAM_OPTIONS).value;
      clientRequestedStreamingUsage :=
        if kind.ChatCompletions? then RawBoolValue(options, INCLUDE_USAGE) || RawBoolValue(options, CONTINUOUS)
        else RawBoolValue(options, CONTINUOUS);
    }

    method StripPriority() returns (stripped: bool)
      modifies this
      ensures stripped <==> PRIORITY in old(rawFields)
      ensures rawFields == old(rawFields) - {PRIORITY}
      ensures modified <==> old(modified) || stripped
      ensures clientRequestedStreamingUsage == old(clientRequestedStreamingUsage)
    {
      if PRIORITY !in rawFields {
        assert rawFields - {PRIORITY} == rawFields;
        return false;
      }
      rawFields := rawFields - {PRIORITY};
      modified := true;
      return true;
    }

    method SetPriority(priority: int)
      modifies this
      ensures rawFields == old(rawFields)[PRIORITY := Number(priority)] && modified
      ensures clientRequestedStreamingUsage == old(clientRequestedStreamingUsage)
    {
      rawFields := rawFields[PRIORITY := Number(priority)];
      modified := true;
    }

    method EnableContinuousUsageStats()
      modifies this
      ensures !stream ==> rawFields == old(rawFields) && modified == old(modified)
                          && clientRequestedStreamingUsage == old(clientRequestedStreamingUsage)
      ensures stream ==> modified
      ensures stream ==>
        rawFields == old(rawFields)[STREAM_OPTIONS := Object(OptionsOf(old(rawFields))[CONTINUOUS := Bool(true)])]
      ensures stream ==> (clientRequestedStreamingUsage <==> (
        old(clientRequestedStreamingUsage)
        || IsTrue(OptionsOf(old(rawFields)), INCLUDE_USAGE) || IsTrue(OptionsOf(old(rawFields)), CONTINUOUS)))
    {
      if !stream {
        return;
      }
      var parsed := RawObjectFields(rawFields, STREAM_OPTIONS);
      var streamOptions := if parsed.Some? then parsed.value else map[];
      if RawBoolValue(streamOptions, INCLUDE_USAGE) || RawBoolValue(streamOptions, CONTINUOUS) {
        clientRequestedStreamingUsage := true;
      }
      rawFields := rawFields[STREAM_OPTIONS := Object(streamOptions[CONTINUOUS := Bool(true)])];
      modified := true;
    }

    method BodyBytes() returns (body: Body)
      ensures body == if modified then Encoded(rawFields) else Original
    {
      if !modified {
        return Original;
      }
      return Encoded(rawFields);
    }
  }

  /** A key list as a map update spells out the reference. */
  lemma UpdatesRewrite(before: Fields, demoted: bool, after: Fields)
    requires var stripped := before - {PRIORITY};
             var prioritised := if demoted then stripped[PRIORITY := Number(1)] else stripped;
             after == if Streams(before)
                      then prioritised[STREAM_OPTIONS := Object(OptionsOf(before)[CONTINUOUS := Bool(true)])]
                      else prioritised
    ensures Rewrites(before, demoted, after)
  {
    hide Streams, OptionsOf;
    assert PRIORITY != STREAM_OPTIONS;
    if Streams(before) {
      OptionsContinuous(OptionsOf(before));
    }
  }

  lemma OptionsContinuous(options: Fields)
    ensures Continuous(options, options[CONTINUOUS := Bool(true)])
  {
  }

  /** The options and the stream flag are not touched by what happens to the priority. */
  lemma PriorityIsSeparate(fields: Fields, demoted: bool)
    ensures var stripped := fields - {PRIORITY};
            var prioritised := if demoted then stripped[PRIORITY := Number(1)] else stripped;
            OptionsOf(prioritised) == OptionsOf(fields) && (Streams(prioritised) <==> Streams(fields))
  {
    assert PRIORITY != STREAM_OPTIONS && PRIORITY != STREAM;
  }

  lemma AcceptedExactly(fields: Fields, decodes: bool, model: string)
    ensures Accepted(fields, decodes, model) <==>
              && decodes && Trim(model) != ""
              && ("stream" in fields ==> fields["stream"].Null? || fields["stream"].Bool?)
              && ("stream_options" in fields ==> fields["stream_options"].Null? || fields["stream_options"].Object?)
  {
    hide Trim;
  }

  /** The typed pipeline: rejects what its parser does not accept, and serves the rest. */
  method ServeTyped(kind: Kind, fields: Fields, decodes: bool, model: string, demoted: bool, asked: bool)
    returns (outcome: Option<Outcome>)
    ensures outcome.Some? <==> Accepted(fields, decodes, model)
    ensures outcome.Some? <==>
              && decodes && Trim(model) != ""
              && ("stream" in fields ==> fields["stream"].Null? || fields["stream"].Bool?)
              && ("stream_options" in fields ==> fields["stream_options"].Null? || fields["stream_options"].Object?)
    ensures outcome.Some? ==> Serves(fields, demoted, asked, outcome.value)
  {
    hide Rewrites, OptionsOf, Trim, RawBool, RawObjectFields;
    AcceptedExactly(fields, decodes, model);
    if !decodes {
      return None;
    }
    if Trim(model) == "" || RawBool(fields, STREAM).None? || RawObjectFields(fields, STREAM_OPTIONS).None? {
      return None;
    }
    var request := new Request(kind, fields);
    var _ := request.StripPriority();
    if demoted {
      request.SetPriority(1);
    }
    var header := asked;
    PriorityIsSeparate(fields, demoted);
    if request.stream {
      request.EnableContinuousUsageStats();
      if request.clientRequestedStreamingUsage {
        header := true;
      }
    }
    UpdatesRewrite(fields, demoted, request.rawFields);
    var body := request.BodyBytes();
    return Some(Outcome(body, header));
  }

  // ---- The generic pipeline ----

  /** The generic pipeline looks at the decoded values and never rejects their types. */
  method ServeGeneric(fields: Fields, demoted: bool, asked: bool) returns (outcome: Outcome)
    ensures Serves(fields, demoted, asked, outcome)
  {
    hide Rewrites;
    var body := fields - {PRIORITY};
    var bodyModified := PRIORITY in fields;
    if demoted {
      body := body[PRIORITY := Number(1)];
      bodyModified := true;
    }
    var header := asked;
    PriorityIsSeparate(fields, demoted);
    if STREAM in body && body[STREAM] == Bool(true) {
      if STREAM_OPTIONS in body && body[STREAM_OPTIONS].Object? {
        var streamOptions := body[STREAM_OPTIONS].fields;
        if INCLUDE_USAGE in streamOptions && streamOptions[INCLUDE_USAGE] == Bool(true) {
          header := true;
        }
        if CONTINUOUS in streamOptions && streamOptions[CONTINUOUS] == Bool(true) {
          header := true;
        }
        body := body[STREAM_OPTIONS := Object(streamOptions[CONTINUOUS := Bool(true)])];
      } else {
        body := body[STREAM_OPTIONS := Object(map[CONTINUOUS := Bool(true)])];
      }
      bodyModified := true;
    }
    UpdatesRewrite(fields, demoted, body);
    return Outcome(if bodyModified then Encoded(body) else Original, header);
  }

  /** Whatever the typed pipeline accepts, the generic one would send on identically. */
  method ServeBoth(kind: Kind, fields: Fields, decodes: bool, model: string, demoted: bool, asked: bool)
    returns (typed: Option<Outcome>, generic: Outcome)
    ensures typed.Some? ==> typed.value == generic
    ensures typed.None? <==> !Accepted(fields, decodes, model)
  {
    hide Serves, Accepted;
    typed := ServeTyped(kind, fields, decodes, model, demoted, asked);
    generic := ServeGeneric(fields, demoted, asked);
    if typed.Some? {
      ServesIsUnique(fields, demoted, asked, typed.value, generic);
    }
  }

  /** Rewriting what was rewritten changes nothing more, but from then on every stream seems to have asked for
      usage: the request itself no longer tells whether the client did. */
  lemma RewritingTwice(before: Fields, demoted: bool, after: Fields, again: Fields)
    requires Rewrites(before, demoted, after) && Rewrites(after, demoted, again)
    ensures again == after
    ensures Asked(after) <==> Streams(before)
  {
    assert PRIORITY != STREAM_OPTIONS && PRIORITY != STREAM && STREAM != STREAM_OPTIONS;
    assert SameAt(before, after, STREAM);
    hide Asked, OptionsOf, Streams;
    assert Streams(after) <==> Streams(before) by {
      StreamKept(before, after);
    }
    if Streams(before) {
      OptionsKept(after);
      var options := after[STREAM_OPTIONS].fields;
      assert Continuous(options, options);
      ContinuousIsUnique(options, options, again[STREAM_OPTIONS].fields);
    }
    forall k ensures SameAt(after, again, k) {
    }
    AllSame(after, again);
    AskedAfter(after);
  }

  lemma StreamKept(before: Fields, after: Fields)
    requires SameAt(before, after, STREAM)
    ensures Streams(after) <==> Streams(before)
  {
  }

  lemma OptionsKept(fields: Fields)
    requires STREAM_OPTIONS in fields && fields[STREAM_OPTIONS].Object?
    ensures OptionsOf(fields) == fields[STREAM_OPTIONS].fields
  {
  }

  lemma AskedAfter(fields: Fields)
    ensures Asked(fields) ==> Streams(fields)
    ensures Streams(fields) && IsTrue(OptionsOf(fields), CONTINUOUS) ==> Asked(fields)
  {
  }

  /** The reference written out: the client has asked for usage if its own body says so on a stream; the bytes are
      left alone exactly if there is no priority, no demotion and no stream; and otherwise the fields sent are the
      client's, less its priority, plus priority 1 on demotion and continuous usage on a stream. */
  lemma ServesExactly(fields: Fields, demoted: bool, asked: bool, outcome: Outcome)
    requires Serves(fields, demoted, asked, outcome)
    ensures var streams := "stream" in fields && fields["stream"] == Bool(true);
            var options := if "stream_options" in fields && fields["stream_options"].Object?
                           then fields["stream_options"].fields else map[];
            && (outcome.asked <==>
                  asked
                  || (streams && "include_usage" in options && options["include_usage"] == Bool(true))
                  || (streams && "continuous_usage_stats" in options
                      && options["continuous_usage_stats"] == Bool(true)))
            && (outcome.body.Original? <==> "priority" !in fields && !demoted && !streams)
            && (outcome.body.Encoded? ==>
                  var stripped := fields - {"priority"};
                  var prioritised := if demoted then stripped["priority" := Number(1)] else stripped;
                  outcome.body.fields
                    == if streams
                       then prioritised["stream_options" := Object(options["continuous_usage_stats" := Bool(true)])]
                       else prioritised)
  {
    hide Rewrites;
    if outcome.body.Encoded? {
      var stripped := fields - {PRIORITY};
      var prioritised := if demoted then stripped[PRIORITY := Number(1)] else stripped;
      var sent := if Streams(fields)
                  then prioritised[STREAM_OPTIONS := Object(OptionsOf(fields)[CONTINUOUS := Bool(true)])]
                  else prioritised;
      UpdatesRewrite(fields, demoted, sent);
      ServesIsUnique(fields, demoted, asked, outcome, Outcome(Encoded(sent), outcome.asked));
    }
  }
}
