/** Billing of one proxied response (manager/proxy.go, with the closing hooks of tokencount/extractor.go):
    the body handed on to the client, and the billing events emitted while it is read and closed. */
module Proxy {
  import opened Text
  import opened Usage
  import opened Sse
  import opened Extractor

  const SWITCHING_PROTOCOLS := 101
  const OK := 200
  const MAX_BODY: nat := 10 * 1024 * 1024

  datatype Request = Request(authorization: string, metricsRequested: bool, clientRequestedUsage: bool)

  /** The response of the model server. A broken body ends in a read error instead of the end of file. */
  datatype Response = Response(status: int, streaming: bool, json: bool, body: string, broken: bool)

  /** `usageOf` decodes the usage of a whole JSON body, `decode` that of one streamed chunk. */
  datatype Setup = Setup(
    req: Request, resp: Response, collector: bool, websearch: bool,
    usageOf: string -> Option<Tokens>, decode: Decoder)

  datatype Event = Event(apiKey: string, prompt: int, completion: int, total: int, streaming: bool)

  /** The body the client reads from. */
  datatype Body =
    | Raw                                        // the upstream body itself
    | Prefixed(prefix: string, at: nat)          // the bytes already read, then the upstream body
    | Buffered(content: string, at: nat)         // a copy
    | Tee(seen: string)                          // the upstream body, with what was read of it kept aside
    | Piped(content: string, at: nat)            // the output of the stream extractor

  /** `pos` bytes of the upstream body were read; `closer` is set while a billingCloser still has to fire, and
      `extracting` while the stream extractor is still at work. */
  datatype State = State(
    pos: nat, body: Body, closer: bool, extracting: bool, closed: bool, handlerCalled: bool,
    events: seq<Event>, metrics: Option<Tokens>)

  const BEARER := ['B', 'e', 'a', 'r', 'e', 'r', ' ']

  function KeyOf(authorization: string): string {
    if BEARER <= authorization then authorization[|BEARER|..] else ""
  }

  predicate Keyed(x: Setup) {
    x.collector && KeyOf(x.req.authorization) != ""
  }

  function ZeroTokenEvent(x: Setup): Event {
    Event(KeyOf(x.req.authorization), 0, 0, 0, x.resp.streaming)
  }

  function UsageEvent(x: Setup, u: Tokens): Event {
    if x.websearch then ZeroTokenEvent(x)
    else Event(KeyOf(x.req.authorization), u.prompt, u.completion, u.total, x.resp.streaming)
  }

  /** The usage metrics of a non-streaming response go into a header, so its body is buffered first. */
  predicate Buffers(x: Setup) {
    !x.resp.streaming && x.req.metricsRequested && x.resp.status == OK && x.resp.json
  }

  predicate Tees(x: Setup) {
    !x.resp.streaming && x.resp.status == OK && x.resp.json && !x.req.metricsRequested
  }

  predicate OverCap(x: Setup) {
    |x.resp.body| > MAX_BODY
  }

  /** The lines of the stream as far as the scanner gets. */
  function Lines(bytes: string): seq<string> {
    ScanLines(bytes, MAX_LINE).lines
  }

  /** The first bytes of the upstream body. */
  function Reached(x: Setup, reach: nat): string {
    if reach < |x.resp.body| then x.resp.body[..reach] else x.resp.body
  }

  /** The usage found by an extractor that got to read this much of the stream. */
  function StreamUsage(x: Setup, reach: nat): Option<Tokens> {
    var lines := Lines(Reached(x, reach));
    var handled := Handled(Reports(x.decode, lines, |lines|));
    if handled == [] then None else Some(handled[0])
  }

  function Filtered(x: Setup): string {
    var lines := Lines(x.resp.body);
    Render(Kept(x.decode, x.req.clientRequestedUsage, lines, |lines|))
  }

  function Emitted(x: Setup, u: Option<Tokens>): seq<Event> {
    if !x.collector then [] else if u.Some? then [UsageEvent(x, u.value)]
    else if Keyed(x) then [ZeroTokenEvent(x)] else []
  }

  // ---- The life of a response, on values ----

  /** What ModifyResponse leaves; None is its error return. */
  function Modified(x: Setup): Option<State> {
    if x.resp.status == SWITCHING_PROTOCOLS then
      Some(State(0, Raw, false, false, false, false, Emitted(x, None), None))
    else if Buffers(x) then
      if OverCap(x) then
        Some(State(MAX_BODY + 1, Prefixed(x.resp.body[..MAX_BODY + 1], 0), false, false, false, false, [], None))
      else if x.resp.broken then None
      else
        var u := Decoded(x, x.resp.body);
        Some(State(|x.resp.body|, Buffered(x.resp.body, 0), false, false, false, u.Some?, Emitted(x, u), u))
    else if x.resp.streaming then
      Some(State(0, Piped(Filtered(x), 0), false, true, false, false, [], None))
    else
      Some(State(0, if Tees(x) then Tee("") else Raw, Keyed(x) && x.resp.status == OK, false, false, false, [], None))
  }

  function Decoded(x: Setup, bytes: string): Option<Tokens> {
    var u := x.usageOf(bytes);
    if u.Some? then Some(Normalize(u.value)) else None
  }

  function Slice(s: string, at: nat, n: nat): string {
    if at >= |s| then "" else if at + n >= |s| then s[at..] else s[at..at + n]
  }

  /** The bytes that one read of at most n bytes returns. */
  function Part(x: Setup, s: State, n: nat): string {
    match s.body
    case Prefixed(prefix, at) => if at < |prefix| then Slice(prefix, at, n) else Slice(x.resp.body, s.pos, n)
    case Buffered(content, at) => Slice(content, at, n)
    case Piped(content, at) => Slice(content, at, n)
    case Raw => Slice(x.resp.body, s.pos, n)
    case Tee(_) => Slice(x.resp.body, s.pos, n)
  }

  function AfterRead(x: Setup, s: State, n: nat): State {
    var k := |Part(x, s, n)|;
    match s.body
    case Prefixed(prefix, at) =>
      if at < |prefix| then s.(body := Prefixed(prefix, at + k)) else s.(pos := s.pos + k)
    case Buffered(content, at) => s.(body := Buffered(content, at + k))
    case Piped(content, at) => s.(body := Piped(content, at + k))
    case Raw => s.(pos := s.pos + k)
    case Tee(seen) => s.(pos := s.pos + k, body := Tee(seen + Part(x, s, n)))
  }

  function AfterClose(x: Setup, s: State): State {
    var u := if s.body.Tee? then Decoded(x, s.body.seen) else None;
    var billed := if u.Some? && x.collector then s.events + [UsageEvent(x, u.value)] else s.events;
    var called := s.handlerCalled || u.Some?;
    s.(handlerCalled := called, closer := false, closed := true,
       events := if s.closer && !called then billed + [ZeroTokenEvent(x)] else billed)
  }

  /** The extractor ends when all it wrote was read, or, once the pipe is closed, wherever the upstream body
      breaks off; then it reports the usage of what it got to read. */
  predicate CanEnd(s: State) {
    s.extracting && s.body.Piped? && (s.closed || s.body.at >= |s.body.content|)
  }

  function StreamEvents(x: Setup, reach: nat): seq<Event> {
    if StreamUsage(x, reach).Some? then Emitted(x, StreamUsage(x, reach)) else []
  }

  function AfterExtraction(x: Setup, s: State, reach: nat): State {
    var u := StreamUsage(x, reach);
    s.(extracting := false, pos := |Reached(x, reach)|, handlerCalled := s.handlerCalled || u.Some?,
       events := s.events + StreamEvents(x, reach),
       metrics := if x.req.metricsRequested && u.Some? then u else s.metrics)
  }

  /** What can happen before the close: a read of at most n bytes, or the end of the extractor. */
  datatype Step = Reads(n: nat) | ExtractorEnds

  function AfterStep(x: Setup, s: State, step: Step): State {
    if step.Reads? then AfterRead(x, s, step.n)
    else if CanEnd(s) then AfterExtraction(x, s, |x.resp.body|)
    else s
  }

  function Running(x: Setup, s: State, steps: seq<Step>): State {
    if steps == [] then s
    else AfterStep(x, Running(x, s, steps[..|steps| - 1]), steps[|steps| - 1])
  }

  function Received(x: Setup, s: State, step: Step): string {
    if step.Reads? then Part(x, s, step.n) else ""
  }

  /** The bytes the client has received. */
  function Delivered(x: Setup, s: State, steps: seq<Step>): string {
    if steps == [] then ""
    else
      Delivered(x, s, steps[..|steps| - 1])
      + Received(x, Running(x, s, steps[..|steps| - 1]), steps[|steps| - 1])
  }

  function Closing(x: Setup, s: State, closes: nat): State {
    if closes == 0 then s else AfterClose(x, Closing(x, s, closes - 1))
  }

  /** The state after the given steps and a number of closes; an extractor that is still at work when the body
      is closed ends after `reach` bytes of the upstream body. */
  function Life(x: Setup, steps: seq<Step>, closes: nat, reach: nat): State
    requires Modified(x).Some?
  {
    var s := Closing(x, Running(x, Modified(x).value, steps), closes);
    if s.closed && CanEnd(s) then AfterExtraction(x, s, reach) else s
  }

  // ---- The code ----

  class Exchange {
    const x: Setup
    var pos: nat
    var body: Body
    var closer: bool
    var extracting: bool
    var closed: bool
    var handlerCalled: bool
    var events: seq<Event>
    var metrics: Option<Tokens>

    constructor (x: Setup)
      ensures this.x == x && View() == State(0, Raw, false, false, false, false, [], None)
    {
      this.x := x;
      pos, body, closer, extracting, closed, handlerCalled := 0, Raw, false, false, false, false;
      events, metrics := [], None;
    }

    function View(): State
      reads this
    {
      State(pos, body, closer, extracting, closed, handlerCalled, events, metrics)
    }

    /** A billing closer is installed only with a collector; streams are piped, not copied aside. */
    ghost predicate Valid()
      reads this
    {
      && (closer ==> x.collector) && (x.resp.streaming ==> !body.Tee?)
      && (extracting ==> x.resp.streaming && body.Piped?)
    }

    method EmitZeroTokenEvent()
      modifies this`events
      ensures events == old(events) + if x.collector then [ZeroTokenEvent(x)] else []
    {
      if x.collector {
        events := events + [Event(KeyOf(x.req.authorization), 0, 0, 0, x.resp.streaming)];
      }
    }

    method UsageHandler(usage: Tokens)
      modifies this`events, this`handlerCalled, this`metrics
      ensures handlerCalled
      ensures metrics == if x.resp.streaming && x.req.metricsRequested then Some(usage) else old(metrics)
      ensures events == old(events) + if x.collector then [UsageEvent(x, usage)] else []
    {
      handlerCalled := true;
      if x.resp.streaming && x.req.metricsRequested {
        metrics := Some(usage);
      }
      if x.collector {
        if x.websearch {
          EmitZeroTokenEvent();
        } else {
          events := events
            + [Event(KeyOf(x.req.authorization), usage.prompt, usage.completion, usage.total, x.resp.streaming)];
        }
      }
    }

    /** Decides how the body is passed on and bills what is known already. */
    method ModifyResponse() returns (ok: bool)
      requires View() == State(0, Raw, false, false, false, false, [], None)
      modifies this
      ensures ok <==> Modified(x).Some?
      ensures ok ==> Valid() && View() == Modified(x).value
      ensures !ok ==> events == []
    {
      hide Handled, Reports, Kept, Render, ScanLines, KeyOf, Normalize;
      var keyed := x.collector && KeyOf(x.req.authorization) != "";
      if x.resp.status == SWITCHING_PROTOCOLS {
        if keyed {
          EmitZeroTokenEvent();
        }
        return true;
      }
      if !x.resp.streaming && x.req.metricsRequested && x.resp.status == OK && x.resp.json {
        if |x.resp.body| > MAX_BODY {
          pos, body := MAX_BODY + 1, Prefixed(x.resp.body[..MAX_BODY + 1], 0);
          return true;
        }
        if x.resp.broken {
          return false;
        }
        pos := |x.resp.body|;
        var usage := x.usageOf(x.resp.body);
        if usage.Some? {
          UsageHandler(Normalize(usage.value));
          metrics := Some(Normalize(usage.value));
        } else if keyed {
          EmitZeroTokenEvent();
        }
        body := Buffered(x.resp.body, 0);
        return true;
      }
      if x.resp.streaming {
        var extractor := new StreamingTokenExtractor(x.decode, x.req.clientRequestedUsage);
        extractor.ProcessStream(x.resp.body);
        body, extracting := Piped(extractor.output, 0), true;
        return true;
      }
      if x.resp.status == OK && x.resp.json {
        body := Tee("");
      }
      if keyed && x.resp.status == OK {
        closer := true;
      }
      return true;
    }

    method Read(n: nat) returns (chunk: string)
      requires Valid()
      modifies this
      ensures Valid()
      ensures View() == AfterRead(x, old(View()), n) && chunk == Part(x, old(View()), n)
    {
      match body
      case Prefixed(prefix, at) =>
        if at < |prefix| {
          chunk := Slice(prefix, at, n);
          body := Prefixed(prefix, at + |chunk|);
        } else {
          chunk := Slice(x.resp.body, pos, n);
          pos := pos + |chunk|;
        }
      case Buffered(content, at) =>
        chunk := Slice(content, at, n);
        body := Buffered(content, at + |chunk|);
      case Piped(content, at) =>
        chunk := Slice(content, at, n);
        body := Piped(content, at + |chunk|);
      case Raw =>
        chunk := Slice(x.resp.body, pos, n);
        pos := pos + |chunk|;
      case Tee(seen) =>
        chunk := Slice(x.resp.body, pos, n);
        body := Tee(seen + chunk);
        pos := pos + |chunk|;
    }

    /** The extractor's goroutine comes to its end, having read so much of the upstream body: all of it, unless
        the client has hung up. */
    method EndExtraction(reach: nat)
      requires Valid() && CanEnd(View()) && (!closed ==> reach == |x.resp.body|)
      modifies this
      ensures Valid() && View() == AfterExtraction(x, old(View()), reach)
    {
      hide Handled, Reports, ScanLines, KeyOf, Filtered, Kept, Render;
      var bytes := Reached(x, reach);
      var extractor := new StreamingTokenExtractor(x.decode, x.req.clientRequestedUsage);
      extractor.ProcessStream(bytes);
      HandledExactly(Reports(x.decode, Lines(bytes), |Lines(bytes)|));
      pos, extracting := |bytes|, false;
      if |extractor.handled| > 0 {
        UsageHandler(extractor.handled[0]);
      } else {
        assert events + [] == events;
      }
    }

    /** Bills the usage in what was read; the billing closer, if any, bills a request without usage, once. */
    method Close()
      requires Valid()
      modifies this
      ensures Valid()
      ensures View() == AfterClose(x, old(View()))
    {
      hide Normalize, KeyOf;
      if body.Tee? {
        var usage := x.usageOf(body.seen);
        if usage.Some? {
          UsageHandler(Normalize(usage.value));
        }
      }
      closed := true;
      if closer {
        closer := false;
        if !handlerCalled {
          EmitZeroTokenEvent();
        }
      }
    }
  }

  // ---- What is delivered ----

  /** What the client should end up with: the upstream bytes, or the filtered stream. */
  function Whole(x: Setup): string {
    if x.resp.streaming && x.resp.status != SWITCHING_PROTOCOLS then Filtered(x) else x.resp.body
  }

  /** How many bytes of the whole were handed out. */
  function Position(x: Setup, s: State): nat {
    match s.body
    case Prefixed(prefix, at) => if at < |prefix| then at else s.pos
    case Buffered(_, at) => at
    case Piped(_, at) => at
    case Raw => s.pos
    case Tee(_) => s.pos
  }

  ghost predicate Sound(x: Setup, s: State, got: string) {
    && Position(x, s) <= |Whole(x)| && got == Whole(x)[..Position(x, s)]
    && match s.body
       case Prefixed(prefix, at) =>
         && at <= |prefix| <= s.pos <= |Whole(x)| && prefix == Whole(x)[..|prefix|]
         && (at < |prefix| ==> s.pos == |prefix|)
         && Whole(x) == x.resp.body
       case Buffered(content, at) => content == Whole(x)
       case Piped(content, at) => content == Whole(x)
       case Raw => Whole(x) == x.resp.body
       case Tee(seen) => seen == got && Whole(x) == x.resp.body
  }

  lemma SliceExtends(s: string, at: nat, n: nat)
    requires at <= |s|
    ensures at + |Slice(s, at, n)| <= |s| && s[..at] + Slice(s, at, n) == s[..at + |Slice(s, at, n)|]
    ensures n > 0 && Slice(s, at, n) == "" ==> at == |s|
  {
  }

  lemma PrefixSlice(whole: string, prefix: string, at: nat, n: nat)
    requires |prefix| <= |whole| && prefix == whole[..|prefix|] && at < |prefix|
    ensures at + |Slice(prefix, at, n)| <= |prefix|
    ensures whole[..at] + Slice(prefix, at, n) == whole[..at + |Slice(prefix, at, n)|]
    ensures n > 0 ==> Slice(prefix, at, n) != ""
  {
  }

  lemma ReadIsSound(x: Setup, s: State, got: string, n: nat)
    requires Sound(x, s, got)
    ensures Sound(x, AfterRead(x, s, n), got + Part(x, s, n))
    ensures n > 0 && Part(x, s, n) == "" ==> got == Whole(x)
  {
    hide Whole, Slice;
    assert Whole(x)[..|Whole(x)|] == Whole(x);
    if s.body.Prefixed? {
      PrefixedReadIsSound(x, s, got, n);
    } else {
      SliceExtends(Whole(x), Position(x, s), n);
    }
  }

  lemma PrefixedReadIsSound(x: Setup, s: State, got: string, n: nat)
    requires Sound(x, s, got) && s.body.Prefixed?
    ensures Sound(x, AfterRead(x, s, n), got + Part(x, s, n))
    ensures n > 0 && Part(x, s, n) == "" ==> Position(x, s) == |Whole(x)|
  {
    hide Whole, Slice;
    if s.body.at < |s.body.prefix| {
      PrefixSlice(Whole(x), s.body.prefix, s.body.at, n);
    } else {
      SliceExtends(Whole(x), s.pos, n);
    }
  }

  lemma StartIsSound(x: Setup)
    requires Modified(x).Some?
    ensures Sound(x, Modified(x).value, "")
  {
    hide Filtered, StreamUsage, Decoded, Emitted, Keyed;
  }

  lemma EndIsSound(x: Setup, s: State, got: string)
    requires Sound(x, s, got) && CanEnd(s)
    ensures Sound(x, AfterExtraction(x, s, |x.resp.body|), got)
    ensures !s.closed ==> got == Whole(x)
  {
    hide Whole, StreamEvents, StreamUsage;
    assert Whole(x)[..|Whole(x)|] == Whole(x);
  }

  /** What the client has received is in step with the state, and the extractor ended only after everything
      was delivered. */
  lemma {:induction false} RunningIsSound(x: Setup, steps: seq<Step>)
    requires Modified(x).Some?
    ensures var start := Modified(x).value;
            var s, got := Running(x, start, steps), Delivered(x, start, steps);
            && Sound(x, s, got) && !s.closed
            && (start.extracting && !s.extracting ==> got == Whole(x))
            && (s.extracting ==> start.extracting) && s.body.Tee? == start.body.Tee? && s.closer == start.closer
  {
    hide Sound, Modified, Part, AfterExtraction, CanEnd, Whole;
    if steps == [] {
      StartIsSound(x);
      StartIsOpen(x);
    } else {
      var front, step := steps[..|steps| - 1], steps[|steps| - 1];
      RunningIsSound(x, front);
      var s, got := Running(x, Modified(x).value, front), Delivered(x, Modified(x).value, front);
      if step.Reads? {
        ReadIsSound(x, s, got, step.n);
        ReadOnlyMoves(x, s, step.n);
        if !s.extracting && Modified(x).value.extracting {
          AllRead(x, s, got, step.n);
        }
      } else if CanEnd(s) {
        assert got + "" == got;
        EndIsSound(x, s, got);
        ExtractionOnlyReports(x, s);
      } else {
        assert got + "" == got;
      }
    }
  }

  lemma StartIsOpen(x: Setup)
    requires Modified(x).Some?
    ensures !Modified(x).value.closed
  {
  }

  lemma ReadOnlyMoves(x: Setup, s: State, n: nat)
    ensures var t := AfterRead(x, s, n);
            t.(pos := s.pos, body := s.body) == s && t.body.Tee? == s.body.Tee? && t.body.Piped? == s.body.Piped?
  {
    hide Slice;
  }

  lemma ExtractionOnlyReports(x: Setup, s: State)
    ensures var t := AfterExtraction(x, s, |x.resp.body|);
            !t.extracting && t.body == s.body && t.closer == s.closer && t.closed == s.closed
  {
  }

  /** Nothing comes after everything. */
  lemma AllRead(x: Setup, s: State, got: string, n: nat)
    requires Sound(x, s, got) && got == Whole(x)
    ensures Sound(x, AfterRead(x, s, n), got + Part(x, s, n)) ==> got + Part(x, s, n) == Whole(x)
  {
    hide Whole, Slice, Part, AfterRead;
  }

  /** However the body is read and whenever the extractor ends, the client has received a prefix of the upstream
      body (of the filtered stream, when streaming), and all of it once a read comes back empty. */
  lemma DeliveryIsFaithful(x: Setup, steps: seq<Step>, n: nat)
    requires Modified(x).Some?
    ensures Delivered(x, Modified(x).value, steps) <= Whole(x)
    ensures n > 0 && Part(x, Running(x, Modified(x).value, steps), n) == "" ==>
              Delivered(x, Modified(x).value, steps) == Whole(x)
  {
    hide Whole, Modified, Part, Running, Delivered;
    RunningIsSound(x, steps);
    ReadIsSound(x, Running(x, Modified(x).value, steps), Delivered(x, Modified(x).value, steps), n);
  }

  // ---- What is billed ----

  /** Before the close only the end of the extractor bills, which has read the whole stream then. */
  lemma {:induction false} OnlyExtractionBills(x: Setup, s: State, steps: seq<Step>)
    ensures var after, u := Running(x, s, steps), StreamUsage(x, |x.resp.body|);
            var ended := s.extracting && !after.extracting;
            && after.events == s.events + (if ended then StreamEvents(x, |x.resp.body|) else [])
            && after.metrics == (if ended && x.req.metricsRequested && u.Some? then u else s.metrics)
            && after.handlerCalled == (s.handlerCalled || (ended && u.Some?))
            && after.closer == s.closer && after.closed == s.closed && (after.extracting ==> s.extracting)
            && after.body.Tee? == s.body.Tee? && after.body.Piped? == s.body.Piped?
  {
    hide Part, StreamUsage, StreamEvents, AfterRead;
    if steps == [] {
      assert s.events + [] == s.events;
    } else {
      OnlyExtractionBills(x, s, steps[..|steps| - 1]);
      var before, step := Running(x, s, steps[..|steps| - 1]), steps[|steps| - 1];
      if step.Reads? {
        ReadOnlyMoves(x, before, step.n);
      } else {
        assert s.events + [] == s.events;
      }
    }
  }

  /** A stream is billed, and its metrics are known, only after the client received all of it or hung up. */
  lemma StreamBilledAfterDelivery(x: Setup, steps: seq<Step>)
    requires x.resp.streaming && x.resp.status != SWITCHING_PROTOCOLS
    requires Running(x, Modified(x).value, steps).events != []
    ensures Delivered(x, Modified(x).value, steps) == Whole(x)
    ensures Running(x, Modified(x).value, steps).events == StreamEvents(x, |x.resp.body|)
  {
    hide Running, Delivered, Whole, Filtered, StreamEvents, StreamUsage;
    RunningIsSound(x, steps);
    OnlyExtractionBills(x, Modified(x).value, steps);
    assert [] + StreamEvents(x, |x.resp.body|) == StreamEvents(x, |x.resp.body|);
  }

  /** Whether metrics buffering prevents the billing of the response. */
  predicate BufferingGivesUp(x: Setup) {
    Buffers(x) && (OverCap(x) || x.resp.broken)
  }

  /** The usage found in a response of which so much was delivered and so much was reached by the extractor. */
  function FoundUsage(x: Setup, delivered: string, reach: nat): Option<Tokens> {
    if x.resp.status == SWITCHING_PROTOCOLS then None
    else if x.resp.streaming then StreamUsage(x, reach)
    else if BufferingGivesUp(x) then None
    else if Buffers(x) then Decoded(x, x.resp.body)
    else if Tees(x) then Decoded(x, delivered)
    else None
  }

  /** Without usage, a keyed response is billed by the request: an upgrade, or a plain success. */
  predicate BilledPerRequest(x: Setup) {
    && Keyed(x)
    && (x.resp.status == SWITCHING_PROTOCOLS || (x.resp.status == OK && !x.resp.streaming && !BufferingGivesUp(x)))
  }

  function FinalEvents(x: Setup, u: Option<Tokens>): seq<Event> {
    if u.Some? then (if x.collector then [UsageEvent(x, u.value)] else [])
    else if BilledPerRequest(x) then [ZeroTokenEvent(x)] else []
  }

  /** How far the extractor gets: to the end, if it ended before the close. */
  function ReachAtEnd(x: Setup, steps: seq<Step>, reach: nat): nat
    requires Modified(x).Some?
  {
    if Running(x, Modified(x).value, steps).extracting then reach else |x.resp.body|
  }

  /** Closed once, a response leaves exactly these events, wherever its extractor ended: one with the usage
      found in what it read, else one without tokens if it is billed by the request, else none. */
  lemma BilledExactly(x: Setup, steps: seq<Step>, reach: nat)
    requires Modified(x).Some?
    ensures Life(x, steps, 1, reach).events
         == FinalEvents(x, FoundUsage(x, Delivered(x, Modified(x).value, steps), ReachAtEnd(x, steps, reach)))
    ensures !Life(x, steps, 1, reach).extracting
  {
    hide Part, AfterRead, Running, Delivered, Whole, Filtered, StreamUsage, Decoded, KeyOf, Reached;
    var s := Running(x, Modified(x).value, steps);
    OnlyExtractionBills(x, Modified(x).value, steps);
    RunningIsSound(x, steps);
    assert Closing(x, s, 1) == AfterClose(x, Closing(x, s, 0));
  }

  /** At most one billing event per response; exactly one for a keyed success that is not streamed, unless
      metrics buffering gives up; and then its key is the request's. */
  lemma BilledOnce(x: Setup, steps: seq<Step>, reach: nat)
    requires Modified(x).Some?
    ensures |Life(x, steps, 1, reach).events| <= 1
    ensures Keyed(x) && x.resp.status == OK && !x.resp.streaming ==>
              (|Life(x, steps, 1, reach).events| == 1 <==> !BufferingGivesUp(x))
    ensures forall e :: e in Life(x, steps, 1, reach).events ==> e.apiKey == KeyOf(x.req.authorization)
    ensures x.websearch ==> forall e :: e in Life(x, steps, 1, reach).events ==> e == ZeroTokenEvent(x)
  {
    hide Life, Modified, StreamUsage, Decoded, KeyOf, ReachAtEnd;
    BilledExactly(x, steps, reach);
  }

  /** The usage metrics shown to the client are the tokens billed. */
  lemma MetricsAreBilled(x: Setup, steps: seq<Step>, reach: nat)
    requires Modified(x).Some? && x.collector && !x.websearch
    requires Life(x, steps, 1, reach).metrics.Some?
    ensures var u := Life(x, steps, 1, reach).metrics.value;
            Life(x, steps, 1, reach).events
              == [Event(KeyOf(x.req.authorization), u.prompt, u.completion, u.total, x.resp.streaming)]
  {
    hide Part, AfterRead, Running, Delivered, Whole, Filtered, StreamUsage, Decoded, KeyOf, Reached;
    var s := Running(x, Modified(x).value, steps);
    OnlyExtractionBills(x, Modified(x).value, steps);
    BilledExactly(x, steps, reach);
    assert Closing(x, s, 1) == AfterClose(x, Closing(x, s, 0));
  }

  lemma {:induction false} ClosesBill(x: Setup, s: State, closes: nat)
    requires closes > 0
    ensures var u := if s.body.Tee? then Decoded(x, s.body.seen) else None;
            var after := Closing(x, s, closes);
            && |after.events| == |AfterClose(x, s).events| + (if u.Some? && x.collector then closes - 1 else 0)
            && after.body == s.body && !after.closer && after.closed && after.extracting == s.extracting
  {
    hide Decoded, KeyOf;
    if closes > 1 {
      ClosesBill(x, s, closes - 1);
    } else {
      assert Closing(x, s, 1) == AfterClose(x, Closing(x, s, 0));
    }
  }

  /** The body is one whose usage is read at the close, and has some. */
  predicate BillsAtClose(x: Setup, delivered: string) {
    && x.collector && x.resp.status != SWITCHING_PROTOCOLS && Tees(x)
    && Decoded(x, delivered).Some?
  }

  /** Closing more than once is harmless except for a body whose usage is read at the close: it is billed at
      every close. */
  lemma BilledOnceExactly(x: Setup, steps: seq<Step>, closes: nat, reach: nat)
    requires Modified(x).Some? && closes > 0
    ensures |Life(x, steps, closes, reach).events| <= 1 <==>
              closes == 1 || !BillsAtClose(x, Delivered(x, Modified(x).value, steps))
    ensures BillsAtClose(x, Delivered(x, Modified(x).value, steps)) ==> |Life(x, steps, closes, reach).events| == closes
  {
    hide Part, AfterRead, Running, Delivered, Whole, Filtered, StreamUsage, Decoded, KeyOf, Reached;
    var s := Running(x, Modified(x).value, steps);
    OnlyExtractionBills(x, Modified(x).value, steps);
    RunningIsSound(x, steps);
    ClosesBill(x, s, closes);
    BilledExactly(x, steps, reach);
    assert Closing(x, s, 1) == AfterClose(x, Closing(x, s, 0));
  }

  /** Any JSON success with usage, read to its end without usage metrics and closed twice: two events. */
  lemma BilledTwice(body: string, usageOf: string -> Option<Tokens>, decode: Decoder)
    requires body != "" && usageOf("").None? && usageOf(body).Some?
    ensures var x := Setup(Request(BEARER + ['k'], false, false), Response(OK, false, true, body, false),
                           true, false, usageOf, decode);
            && Modified(x).Some? && Delivered(x, Modified(x).value, [Reads(|body|)]) == body
            && |Life(x, [Reads(|body|)], 2, |body|).events| == 2
  {
    hide Normalize, KeyOf, Life;
    var x := Setup(Request(BEARER + ['k'], false, false), Response(OK, false, true, body, false),
                   true, false, usageOf, decode);
    var s, steps := Modified(x).value, [Reads(|body|)];
    assert steps[..0] == [] && Running(x, s, []) == s && Delivered(x, s, []) == "";
    assert Received(x, s, steps[0]) == body && "" + body == body;
    assert Delivered(x, s, steps) == body && BillsAtClose(x, body);
    BilledOnceExactly(x, steps, 2, |body|);
  }

  // ---- The same, read off the request and the response ----

  predicate HasKey(authorization: string) {
    "Bearer " <= authorization && authorization != "Bearer "
  }

  lemma KeyExactly(authorization: string)
    ensures "Bearer " <= authorization ==> authorization == "Bearer " + KeyOf(authorization)
    ensures !("Bearer " <= authorization) ==> KeyOf(authorization) == ""
    ensures KeyOf(authorization) != "" <==> HasKey(authorization)
  {
    assert BEARER == "Bearer ";
    if "Bearer " <= authorization {
      assert authorization == authorization[..|BEARER|] + authorization[|BEARER|..];
    }
  }

  /** The event carries what follows "Bearer " in the request, nothing if the request has no such authorization,
      and for the web search service no tokens. */
  predicate Charged(x: Setup, e: Event) {
    && (if "Bearer " <= x.req.authorization then x.req.authorization == "Bearer " + e.apiKey else e.apiKey == "")
    && e.streaming == x.resp.streaming
    && (x.websearch ==> e.prompt == 0 && e.completion == 0 && e.total == 0)
  }

  predicate AllCharged(x: Setup, events: seq<Event>) {
    forall i :: 0 <= i < |events| ==> Charged(x, events[i])
  }

  lemma EventsAreCharged(x: Setup, u: Tokens)
    ensures Charged(x, ZeroTokenEvent(x)) && Charged(x, UsageEvent(x, u))
  {
    hide KeyOf;
    KeyExactly(x.req.authorization);
  }

  lemma EmittedIsCharged(x: Setup, u: Option<Tokens>)
    ensures AllCharged(x, Emitted(x, u))
  {
    hide Charged, UsageEvent, ZeroTokenEvent;
    EventsAreCharged(x, if u.Some? then u.value else ZERO);
  }

  lemma ModifiedIsCharged(x: Setup)
    requires Modified(x).Some?
    ensures AllCharged(x, Modified(x).value.events)
  {
    hide Emitted, AllCharged, Decoded, Filtered;
    EmittedIsCharged(x, None);
    EmittedIsCharged(x, Decoded(x, x.resp.body));
    assert AllCharged(x, []) by {
      NothingCharged(x);
    }
  }

  lemma NothingCharged(x: Setup)
    ensures AllCharged(x, [])
  {
  }

  lemma ChargedAppend(x: Setup, a: seq<Event>, b: seq<Event>)
    requires AllCharged(x, a) && AllCharged(x, b)
    ensures AllCharged(x, a + b)
  {
    hide Charged;
  }

  lemma {:induction false} ClosingIsCharged(x: Setup, s: State, closes: nat)
    requires AllCharged(x, s.events)
    ensures AllCharged(x, Closing(x, s, closes).events)
  {
    hide Decoded, Charged, UsageEvent, ZeroTokenEvent;
    if closes > 0 {
      ClosingIsCharged(x, s, closes - 1);
      var t := Closing(x, s, closes - 1);
      var u := if t.body.Tee? then Decoded(x, t.body.seen) else None;
      EventsAreCharged(x, if u.Some? then u.value else ZERO);
    }
  }

  lemma ExtractionIsCharged(x: Setup, reach: nat)
    ensures AllCharged(x, StreamEvents(x, reach))
  {
    hide Emitted, AllCharged, StreamUsage;
    EmittedIsCharged(x, StreamUsage(x, reach));
    NothingCharged(x);
  }

  /** Every event of every life of a response, however often it is closed, is charged to the key of its request. */
  lemma BilledToRequest(x: Setup, steps: seq<Step>, closes: nat, reach: nat)
    requires Modified(x).Some?
    ensures forall e :: e in Life(x, steps, closes, reach).events ==>
              (if "Bearer " <= x.req.authorization then x.req.authorization == "Bearer " + e.apiKey else e.apiKey == "")
              && e.streaming == x.resp.streaming
              && (x.websearch ==> e.prompt == 0 && e.completion == 0 && e.total == 0)
  {
    hide AllCharged, Closing, Running, StreamEvents, StreamUsage, Modified;
    var start := Modified(x).value;
    ModifiedIsCharged(x);
    OnlyExtractionBills(x, start, steps);
    ExtractionIsCharged(x, |x.resp.body|);
    ExtractionIsCharged(x, reach);
    NothingCharged(x);
    var s := Running(x, start, steps);
    ChargedAppend(x, start.events, if start.extracting && !s.extracting then StreamEvents(x, |x.resp.body|) else []);
    ClosingIsCharged(x, s, closes);
    ChargedAppend(x, Closing(x, s, closes).events, StreamEvents(x, reach));
    ChargedOnes(x, Life(x, steps, closes, reach).events);
  }

  lemma ChargedOnes(x: Setup, events: seq<Event>)
    requires AllCharged(x, events)
    ensures forall e :: e in events ==> Charged(x, e)
  {
    hide Charged;
  }

  /** The raw usage report that a response which is not streamed is billed by: of the buffered body, or of what
      the client received of it. */
  function RawReport(x: Setup, received: string): Option<Tokens> {
    if x.resp.status != 200 || !x.resp.json then None
    else x.usageOf(if x.req.metricsRequested then x.resp.body else received)
  }

  /** The header with the metrics cannot be filled: the body is larger than ten mebibytes. */
  predicate TooLarge(x: Setup) {
    x.resp.status == 200 && x.resp.json && x.req.metricsRequested && |x.resp.body| > 10485760
  }

  /** The tokens are those of the report; none for the web search service. */
  predicate Carries(x: Setup, e: Event, prompt: int, completion: int, total: int) {
    if x.websearch then e.prompt == 0 && e.completion == 0 && e.total == 0
    else e.prompt == prompt && e.completion == completion && e.total == total
  }

  lemma DecodedExactly(x: Setup, bytes: string)
    ensures Decoded(x, bytes).Some? <==> x.usageOf(bytes).Some?
    ensures x.usageOf(bytes).Some? ==>
              var u, r := Decoded(x, bytes).value, x.usageOf(bytes).value;
              u.prompt == PromptOf(r) && u.completion == CompletionOf(r) && u.total == r.total
  {
  }

  lemma UsageEventCarries(x: Setup, u: Tokens)
    ensures Carries(x, UsageEvent(x, u), u.prompt, u.completion, u.total)
    ensures Carries(x, ZeroTokenEvent(x), 0, 0, 0)
  {
    hide KeyOf;
  }

  /** What a response that is not streamed leaves, from its own status, type and body: one event with its usage,
      key or no key; else one without tokens for an upgrade or a success with a key; and nothing at all if the
      metrics were asked of a body over the limit. */
  lemma PlainBilledExactly(x: Setup, steps: seq<Step>, reach: nat)
    requires Modified(x).Some? && (x.resp.streaming ==> x.resp.status == 101)
    ensures var events, r := Life(x, steps, 1, reach).events, RawReport(x, Delivered(x, Modified(x).value, steps));
            && (events != [] <==>
                  && x.collector && !TooLarge(x)
                  && (r.Some? || (HasKey(x.req.authorization) && (x.resp.status == 101 || x.resp.status == 200))))
            && (events != [] ==>
                  && |events| == 1
                  && if r.Some? then Carries(x, events[0], PromptOf(r.value), CompletionOf(r.value), r.value.total)
                     else Carries(x, events[0], 0, 0, 0))
  {
    hide Life, Delivered, Running, Modified, StreamUsage, Decoded, KeyOf, UsageEvent, ZeroTokenEvent, Carries,
         PromptOf, CompletionOf, Reached;
    BilledExactly(x, steps, reach);
    BufferedIsWhole(x);
    KeyExactly(x.req.authorization);
    var bytes := if x.req.metricsRequested then x.resp.body else Delivered(x, Modified(x).value, steps);
    DecodedExactly(x, bytes);
    UsageEventCarries(x, if Decoded(x, bytes).Some? then Decoded(x, bytes).value else ZERO);
  }

  /** A request with a key whose response is a success, or an upgrade, that is not streamed: exactly one event, with
      that key, unless the metrics were asked of a body over the limit; then none. */
  lemma KeyedBilledOnce(x: Setup, key: string, steps: seq<Step>, reach: nat)
    requires Modified(x).Some? && x.collector
    requires key != "" && x.req.authorization == "Bearer " + key
    requires x.resp.status == 101 || (x.resp.status == 200 && !x.resp.streaming)
    ensures var events := Life(x, steps, 1, reach).events;
            && |events| == (if TooLarge(x) then 0 else 1)
            && (events != [] ==> events[0].apiKey == key)
  {
    hide Life, Delivered, Modified, RawReport, Carries;
    var events := Life(x, steps, 1, reach).events;
    PlainBilledExactly(x, steps, reach);
    BilledToRequest(x, steps, 1, reach);
    if events != [] {
      assert events[0] in events;
      SameTail("Bearer ", key, events[0].apiKey);
    }
  }

  lemma SameTail(a: string, b: string, b': string)
    requires a + b == a + b'
    ensures b == b'
  {
    assert (a + b)[|a|..] == b && (a + b')[|a|..] == b';
  }

  /** The response is given up with an error exactly if the body to be buffered breaks off below the limit. */
  lemma BufferedIsWhole(x: Setup)
    ensures Modified(x).None? <==>
              && x.resp.status == 200 && x.resp.json && !x.resp.streaming && x.req.metricsRequested
              && x.resp.broken && |x.resp.body| <= 10485760
  {
    hide Emitted, Decoded, Filtered;
  }

  /** The bytes of the stream that the extractor got to read. */
  function ReadByExtractor(x: Setup, steps: seq<Step>, reach: nat): string
    requires Modified(x).Some?
  {
    if Running(x, Modified(x).value, steps).extracting && reach < |x.resp.body| then x.resp.body[..reach]
    else x.resp.body
  }

  lemma ReachedExactly(x: Setup, steps: seq<Step>, reach: nat)
    requires Modified(x).Some?
    ensures Reached(x, ReachAtEnd(x, steps, reach)) == ReadByExtractor(x, steps, reach)
  {
    hide Modified, Running;
  }

  /** What a stream leaves: one event exactly if some line the extractor read has a positive total or completion,
      each counter from the last line on which it is positive. */
  lemma StreamBilledExactly(x: Setup, steps: seq<Step>, reach: nat)
    returns (prompt: int, completion: int, total: int)
    requires Modified(x).Some? && x.resp.streaming && x.resp.status != 101
    ensures var lines := ScanLines(ReadByExtractor(x, steps, reach), 65536).lines;
            && LastOn(x.decode, lines, |lines|, PromptOf, prompt)
            && LastOn(x.decode, lines, |lines|, CompletionOf, completion)
            && LastOn(x.decode, lines, |lines|, (u: Tokens) => u.total, total)
            && var p, c := CounterAt(x.decode, lines, PromptOf, prompt),
                           CounterAt(x.decode, lines, CompletionOf, completion);
               var t := if total < 0 then p + c else CounterAt(x.decode, lines, (u: Tokens) => u.total, total);
               var after := Life(x, steps, 1, reach);
               && (after.events != [] <==> x.collector && (total >= 0 || completion >= 0))
               && (after.events != [] ==> |after.events| == 1 && Carries(x, after.events[0], p, c, t))
               && (after.metrics.Some? <==> x.req.metricsRequested && (total >= 0 || completion >= 0))
               && (after.metrics.Some? ==>
                     after.metrics.value.prompt == p && after.metrics.value.completion == c
                     && after.metrics.value.total == t)
  {
    hide Life, Delivered, Running, Modified, Decoded, KeyOf, UsageEvent, ZeroTokenEvent, Carries, Handled, Reports,
         PromptOf, CompletionOf, Reached, ReachAtEnd, ReadByExtractor, LastOn, CounterAt, ScanLines;
    BilledExactly(x, steps, reach);
    MetricsExactly(x, steps, reach);
    ReachedExactly(x, steps, reach);
    prompt, completion, total := UsageFoundExactly(x.decode, Lines(ReadByExtractor(x, steps, reach)));
    var u := StreamUsage(x, ReachAtEnd(x, steps, reach));
    UsageEventCarries(x, if u.Some? then u.value else ZERO);
  }

  /** The metrics shown are the usage found, if they were asked for and the response is a stream or was buffered. */
  lemma MetricsExactly(x: Setup, steps: seq<Step>, reach: nat)
    requires Modified(x).Some?
    ensures Life(x, steps, 1, reach).metrics
         == if !x.req.metricsRequested || x.resp.status == 101 then None
            else if x.resp.streaming then StreamUsage(x, ReachAtEnd(x, steps, reach))
            else if x.resp.status == 200 && x.resp.json && !TooLarge(x) then Decoded(x, x.resp.body)
            else None
  {
    hide Part, AfterRead, Running, Delivered, Filtered, StreamUsage, Decoded, KeyOf, Reached;
    var s := Running(x, Modified(x).value, steps);
    OnlyExtractionBills(x, Modified(x).value, steps);
    RunningIsSound(x, steps);
    assert Closing(x, s, 1) == AfterClose(x, Closing(x, s, 0));
  }

  /** Bytes that were not streamed arrive as they are, and a read returns at most as many as it asks for. */
  lemma PlainDelivery(x: Setup, steps: seq<Step>, n: nat)
    requires Modified(x).Some? && (x.resp.streaming ==> x.resp.status == 101)
    ensures Delivered(x, Modified(x).value, steps + [Reads(n)])
         == Delivered(x, Modified(x).value, steps) + Part(x, Running(x, Modified(x).value, steps), n)
    ensures Delivered(x, Modified(x).value, steps + [Reads(n)]) <= x.resp.body
    ensures |Part(x, Running(x, Modified(x).value, steps), n)| <= n
    ensures n > 0 && Part(x, Running(x, Modified(x).value, steps), n) == "" ==>
              Delivered(x, Modified(x).value, steps) == x.resp.body
  {
    hide Modified, Running, Part;
    assert (steps + [Reads(n)])[..|steps|] == steps;
    DeliveryIsFaithful(x, steps, n);
    DeliveryIsFaithful(x, steps + [Reads(n)], n);
    PartIsBounded(x, Running(x, Modified(x).value, steps), n);
  }

  /** A stream arrives as the lines the client is to receive, each ended by a line feed. */
  lemma StreamDelivery(x: Setup, steps: seq<Step>, n: nat) returns (kept: seq<nat>)
    requires Modified(x).Some? && x.resp.streaming && x.resp.status != 101
    ensures var lines := ScanLines(x.resp.body, 65536).lines;
            && (forall p, q :: 0 <= p < q < |kept| ==> kept[p] < kept[q])
            && (forall p :: 0 <= p < |kept| ==> kept[p] < |lines|)
            && (forall h :: 0 <= h < |lines| ==>
                  (h in kept <==> Receives(x.decode, x.req.clientRequestedUsage, lines, h)))
            && var whole := Render(seq(|kept|, p requires 0 <= p < |kept| => lines[kept[p]]));
               && Delivered(x, Modified(x).value, steps) <= whole
               && (n > 0 && Part(x, Running(x, Modified(x).value, steps), n) == "" ==>
                     Delivered(x, Modified(x).value, steps) == whole)
  {
    hide Modified, Running, Part, Delivered, ScanLines, Kept, Render, Receives;
    var lines := Lines(x.resp.body);
    DeliveryIsFaithful(x, steps, n);
    kept := KeptExactly(x.decode, x.req.clientRequestedUsage, lines, |lines|);
    assert seq(|kept|, p requires 0 <= p < |kept| => lines[kept[p]])
        == Kept(x.decode, x.req.clientRequestedUsage, lines, |lines|);
  }

  lemma PartIsBounded(x: Setup, s: State, n: nat)
    ensures |Part(x, s, n)| <= n
  {
  }
}
