/** Server-sent events as bytes: the line scanner, the router's own printer and parser (openaiapi/util.go,
    openaiapi/responses_runner.go). A `string` is a sequence of bytes here. */
module Sse {
  import opened Text

  const FIELD := "data: "

  // ---- Lines ----

  /** The position of the first line feed, or the length. */
  function LfAt(s: string): (i: nat)
    ensures i <= |s|
    ensures i < |s| ==> s[i] == '\n'
  {
    if s == [] || s[0] == '\n' then 0 else 1 + LfAt(s[1..])
  }

  lemma {:induction false} NoLfBefore(s: string)
    ensures forall k :: 0 <= k < LfAt(s) ==> s[k] != '\n'
  {
    if s != [] && s[0] != '\n' {
      NoLfBefore(s[1..]);
    }
  }

  function DropCr(line: string): string {
    if line != [] && line[|line| - 1] == '\r' then line[..|line| - 1] else line
  }

  /** What a line scanner with a buffer of `max` bytes delivers; incomplete when it meets a longer line. */
  datatype Scan = Scan(lines: seq<string>, complete: bool)

  function ScanLines(s: string, max: nat): Scan
    decreases |s|
  {
    if s == [] then Scan([], true)
    else
      var i := LfAt(s);
      if i >= max then Scan([], false)
      else
        var rest := ScanLines(if i < |s| then s[i + 1..] else [], max);
        Scan([DropCr(s[..i])] + rest.lines, rest.complete)
  }

  lemma ScanFirst(s: string, max: nat)
    requires LfAt(s) < |s| && LfAt(s) < max
    ensures var i := LfAt(s);
            var rest := ScanLines(s[i + 1..], max);
            ScanLines(s, max) == Scan([DropCr(s[..i])] + rest.lines, rest.complete)
  {
  }

  /** Lines as written, each ended by a line feed. */
  function Render(lines: seq<string>): string {
    if lines == [] then [] else lines[0] + "\n" + Render(lines[1..])
  }

  predicate LfFree(s: string) {
    '\n' !in s
  }

  predicate NoTrailingCr(line: string) {
    line == [] || line[|line| - 1] != '\r'
  }

  /** A line that a scanner delivers unchanged when it is written and read back. */
  predicate Plain(line: string, max: nat) {
    LfFree(line) && NoTrailingCr(line) && |line| < max
  }

  predicate AllPlain(lines: seq<string>, max: nat) {
    forall i :: 0 <= i < |lines| ==> Plain(lines[i], max)
  }

  lemma {:induction false} LfAtAppend(line: string, rest: string)
    requires LfFree(line)
    ensures LfAt(line + "\n" + rest) == |line|
  {
    var s := line + "\n" + rest;
    NoLfBefore(s);
    assert s[|line|] == '\n';
    assert forall k :: 0 <= k < |line| ==> s[k] == line[k];
  }

  lemma ScanOneLine(line: string, rest: string, max: nat)
    requires Plain(line, max)
    ensures ScanLines(line + "\n" + rest, max)
         == Scan([line] + ScanLines(rest, max).lines, ScanLines(rest, max).complete)
  {
    var s := line + "\n" + rest;
    LfAtAppend(line, rest);
    assert s[..|line|] == line && s[|line| + 1..] == rest;
  }

  /** Written lines are read back, whatever follows them. */
  lemma {:induction false} RenderThenScan(lines: seq<string>, rest: string, max: nat)
    requires AllPlain(lines, max)
    ensures ScanLines(Render(lines) + rest, max)
         == Scan(lines + ScanLines(rest, max).lines, ScanLines(rest, max).complete)
  {
    hide ScanLines, Plain;
    if lines == [] {
      assert Render(lines) + rest == rest;
      assert lines + ScanLines(rest, max).lines == ScanLines(rest, max).lines;
    } else {
      RenderThenScan(lines[1..], rest, max);
      ScanOneLine(lines[0], Render(lines[1..]) + rest, max);
      assert Render(lines) + rest == lines[0] + "\n" + (Render(lines[1..]) + rest);
      assert [lines[0]] + (lines[1..] + ScanLines(rest, max).lines) == lines + ScanLines(rest, max).lines;
    }
  }

  lemma {:induction false} RenderAppend(a: seq<string>, b: seq<string>)
    ensures Render(a + b) == Render(a) + Render(b)
  {
    if a == [] {
      assert a + b == b;
    } else {
      RenderAppend(a[1..], b);
      assert (a + b)[1..] == a[1..] + b;
    }
  }

  lemma {:induction false} ScannedLinesLfFree(s: string, max: nat)
    ensures forall i :: 0 <= i < |ScanLines(s, max).lines| ==>
              LfFree(ScanLines(s, max).lines[i]) && |ScanLines(s, max).lines[i]| < max
    decreases |s|
  {
    if s != [] && LfAt(s) < max {
      var i := LfAt(s);
      NoLfBefore(s);
      ScannedLinesLfFree(if i < |s| then s[i + 1..] else [], max);
    }
  }

  predicate HasCrLf(s: string) {
    exists i :: 0 <= i < |s| - 1 && s[i] == '\r' && s[i + 1] == '\n'
  }

  predicate Terminated(s: string) {
    s == [] || s[|s| - 1] == '\n'
  }

  /** Scanning and writing back is the identity exactly on complete, LF-terminated input without CR LF. */
  lemma {:induction false} CopiedExactly(s: string, max: nat)
    ensures Render(ScanLines(s, max).lines) == s
       <==> ScanLines(s, max).complete && Terminated(s) && !HasCrLf(s)
    decreases |s|
  {
    if s == [] || LfAt(s) >= max {
      return;
    }
    var i := LfAt(s);
    if i == |s| {
      NoLfBefore(s);
      var out := Render(ScanLines(s, max).lines);
      assert ScanLines(s, max).lines == [DropCr(s)] by {
        assert s[..i] == s;
      }
      assert Render([DropCr(s)]) == DropCr(s) + "\n" + Render([]);
      assert out[|out| - 1] == '\n';
      return;
    }
    var rest, line := s[i + 1..], s[..i];
    CopiedExactly(rest, max);
    CopyFirstLine(s, i, rest, max);
    CrLfSplits(s, i);
    hide ScanLines, Render, HasCrLf;
    assert Terminated(s) <==> Terminated(rest);
  }

  lemma CopyFirstLine(s: string, i: nat, rest: string, max: nat)
    requires i == LfAt(s) && i < |s| && i < max && rest == s[i + 1..]
    ensures Render(ScanLines(s, max).lines) == s
       <==> NoTrailingCr(s[..i]) && Render(ScanLines(rest, max).lines) == rest
    ensures ScanLines(s, max).complete == ScanLines(rest, max).complete
  {
    hide ScanLines, LfAt, Render, DropCr, NoTrailingCr;
    ScanFirst(s, max);
    var line, tail := s[..i], ScanLines(rest, max).lines;
    RenderFirst(DropCr(line), tail);
    assert s == line + "\n" + rest;
    CopyLine(line, rest, Render(tail));
  }

  lemma RenderFirst(line: string, tail: seq<string>)
    ensures Render([line] + tail) == line + "\n" + Render(tail)
  {
    assert ([line] + tail)[1..] == tail;
  }

  lemma CopyLine(line: string, rest: string, copy: string)
    ensures DropCr(line) + "\n" + copy == line + "\n" + rest <==> NoTrailingCr(line) && copy == rest
  {
    var out, s := DropCr(line) + "\n" + copy, line + "\n" + rest;
    if NoTrailingCr(line) {
      assert out[|line| + 1..] == copy && s[|line| + 1..] == rest;
    } else {
      assert out[|line| - 1] == '\n' && s[|line| - 1] == '\r';
    }
  }

  lemma CrLfSplits(s: string, i: nat)
    requires i == LfAt(s) && i < |s|
    ensures HasCrLf(s) <==> !NoTrailingCr(s[..i]) || HasCrLf(s[i + 1..])
  {
    NoLfBefore(s);
    hide LfAt;
    var rest := s[i + 1..];
    if HasCrLf(s) {
      var k :| 0 <= k < |s| - 1 && s[k] == '\r' && s[k + 1] == '\n';
      if k > i {
        assert rest[k - i - 1] == '\r' && rest[k - i - 1 + 1] == '\n';
      } else {
        assert k + 1 == i;
        assert s[..i][|s[..i]| - 1] == '\r';
      }
    }
    if !NoTrailingCr(s[..i]) {
      assert s[i - 1] == '\r' && s[i - 1 + 1] == '\n';
    }
    if HasCrLf(rest) {
      var k :| 0 <= k < |rest| - 1 && rest[k] == '\r' && rest[k + 1] == '\n';
      assert s[i + 1 + k] == '\r' && s[i + 1 + k + 1] == '\n';
    }
  }

  // ---- The parser ----

  predicate IsData(line: string) {
    FIELD <= line
  }

  /** The payload a line contributes to its event. */
  function DataOf(line: string): string {
    if IsData(line) then line[|FIELD|..] else []
  }

  /** The payloads delivered so far, and the pending one. */
  datatype Parse = Parse(done: seq<string>, data: string)

  function ParseLine(p: Parse, line: string): Parse {
    if line == "" then (if p.data != "" then Parse(p.done + [p.data], "") else p)
    else p.(data := p.data + DataOf(line))
  }

  function ParseLines(lines: seq<string>): Parse {
    if lines == [] then Parse([], "")
    else ParseLine(ParseLines(lines[..|lines| - 1]), lines[|lines| - 1])
  }

  /** The payloads of a whole stream; the pending one only counts when the stream was read to its end. */
  function Payloads(scan: Scan): seq<string> {
    var p := ParseLines(scan.lines);
    if scan.complete && p.data != "" then p.done + [p.data] else p.done
  }

  lemma {:induction false} ParseAppend(a: seq<string>, b: seq<string>)
    requires ParseLines(a).data == ""
    ensures ParseLines(a + b) == Parse(ParseLines(a).done + ParseLines(b).done, ParseLines(b).data)
  {
    hide DataOf;
    if b == [] {
      assert a + b == a;
    } else {
      var b', line := b[..|b| - 1], b[|b| - 1];
      ParseAppend(a, b');
      assert (a + b)[..|a + b| - 1] == a + b';
    }
  }

  /** The events delivered to the callback: decoding stops at the first payload that is no JSON object. */
  function Decoded<E>(unmarshal: string -> Option<E>, payloads: seq<string>): seq<E> {
    if payloads == [] || unmarshal(payloads[0]).None? then []
    else [unmarshal(payloads[0]).value] + Decoded(unmarshal, payloads[1..])
  }

  predicate AllDecode<E>(unmarshal: string -> Option<E>, payloads: seq<string>) {
    forall i :: 0 <= i < |payloads| ==> unmarshal(payloads[i]).Some?
  }

  lemma {:induction false} DecodedAppend<E>(unmarshal: string -> Option<E>, a: seq<string>, p: string)
    requires AllDecode(unmarshal, a)
    ensures Decoded(unmarshal, a + [p])
         == Decoded(unmarshal, a) + (if unmarshal(p).Some? then [unmarshal(p).value] else [])
  {
    if a == [] {
      assert Decoded(unmarshal, [p][1..]) == [];
    } else {
      DecodedAppend(unmarshal, a[1..], p);
      assert (a + [p])[1..] == a[1..] + [p];
    }
  }

  lemma {:induction false} DecodedStops<E>(unmarshal: string -> Option<E>, a: seq<string>, b: seq<string>)
    requires !AllDecode(unmarshal, a)
    ensures Decoded(unmarshal, a + b) == Decoded(unmarshal, a)
  {
    if unmarshal(a[0]).Some? {
      assert !AllDecode(unmarshal, a[1..]) by {
        var i :| 0 <= i < |a| && unmarshal(a[i]).None?;
        assert a[1..][i - 1] == a[i];
      }
      DecodedStops(unmarshal, a[1..], b);
      assert (a + b)[1..] == a[1..] + b;
    }
  }

  lemma {:induction false} DoneGrows(a: seq<string>, b: seq<string>)
    ensures ParseLines(a).done <= ParseLines(a + b).done
  {
    hide DataOf;
    if b == [] {
      assert a + b == a;
    } else {
      DoneGrows(a, b[..|b| - 1]);
      assert (a + b)[..|a + b| - 1] == a + b[..|b| - 1];
    }
  }

  /** The parser loop: it delivers the decoded payloads in order, and succeeds exactly when the stream was
      read to its end and every payload decoded. */
  method ParseSseStream<E>(input: string, max: nat, unmarshal: string -> Option<E>)
    returns (events: seq<E>, ok: bool)
    ensures events == Decoded(unmarshal, Payloads(ScanLines(input, max)))
    ensures ok <==> ScanLines(input, max).complete && AllDecode(unmarshal, Payloads(ScanLines(input, max)))
  {
    hide ScanLines, DataOf;
    var scan := ScanLines(input, max);
    var data := "";
    ghost var done: seq<string> := [];
    events := [];
    for i := 0 to |scan.lines|
      invariant ParseLines(scan.lines[..i]) == Parse(done, data)
      invariant events == Decoded(unmarshal, done)
      invariant AllDecode(unmarshal, done)
    {
      var line := scan.lines[i];
      assert scan.lines[..i + 1][..i] == scan.lines[..i];
      assert ParseLines(scan.lines[..i + 1]) == ParseLine(Parse(done, data), line);
      if line == "" {
        if data != "" {
          DecodedAppend(unmarshal, done, data);
          done := done + [data];
          if unmarshal(data).None? {
            assert done[|done| - 1] == data;
            StoppedEarly(scan, i + 1, unmarshal);
            return events, false;
          }
          events := events + [unmarshal(data).value];
          data := "";
        }
      } else {
        data := data + DataOf(line);
      }
    }
    assert scan.lines[..|scan.lines|] == scan.lines;
    if !scan.complete {
      return events, false;
    }
    ok := true;
    if data != "" {
      DecodedAppend(unmarshal, done, data);
      if unmarshal(data).None? {
        assert (done + [data])[|done|] == data;
        return events, false;
      }
      events := events + [unmarshal(data).value];
    }
  }

  /** Lines after an undecodable payload change nothing. */
  lemma StoppedEarly<E>(scan: Scan, i: nat, unmarshal: string -> Option<E>)
    requires i <= |scan.lines|
    requires !AllDecode(unmarshal, ParseLines(scan.lines[..i]).done)
    ensures !AllDecode(unmarshal, Payloads(scan))
    ensures Decoded(unmarshal, Payloads(scan)) == Decoded(unmarshal, ParseLines(scan.lines[..i]).done)
  {
    var done, all := ParseLines(scan.lines[..i]).done, Payloads(scan);
    DoneGrows(scan.lines[..i], scan.lines[i..]);
    assert scan.lines[..i] + scan.lines[i..] == scan.lines;
    hide ParseLines;
    assert done <= all;
    DecodedStops(unmarshal, done, all[|done|..]);
    assert done + all[|done|..] == all;
    var k :| 0 <= k < |done| && unmarshal(done[k]).None?;
    assert all[k] == done[k];
  }

  // ---- The printer ----

  /** An event to print: its trimmed type, "" if it has none, and its JSON payload. */
  datatype Printed = Printed(kind: string, payload: string)

  function EncodeSse(e: Printed): string {
    (if e.kind != "" then "event: " + e.kind + "\n" else "") + "data: " + e.payload + "\n\n"
  }

  function EncodeAll(es: seq<Printed>): string {
    if es == [] then [] else EncodeSse(es[0]) + EncodeAll(es[1..])
  }

  function PayloadsOf(es: seq<Printed>): seq<string> {
    seq(|es|, i requires 0 <= i < |es| => es[i].payload)
  }

  /** A marshalled JSON object: not empty, on one line, and short enough for the reader. */
  predicate Printable(e: Printed, max: nat) {
    e.payload != "" && Plain(FIELD + e.payload, max)
  }

  /** The lines of the type field, however many line feeds the type contains. */
  function KindScan(e: Printed, max: nat): Scan {
    if e.kind == "" then Scan([], true) else ScanLines("event: " + e.kind + "\n", max)
  }

  /** The type field puts no data of its own into the event. */
  predicate Harmless(e: Printed, max: nat) {
    && KindScan(e, max).complete
    && forall i :: 0 <= i < |KindScan(e, max).lines| ==> DataOf(KindScan(e, max).lines[i]) == ""
  }

  lemma {:induction false} ScanAppend(a: string, b: string, max: nat)
    requires Terminated(a) && ScanLines(a, max).complete
    ensures ScanLines(a + b, max)
         == Scan(ScanLines(a, max).lines + ScanLines(b, max).lines, ScanLines(b, max).complete)
    decreases |a|
  {
    hide LfAt, DropCr, Terminated;
    if a == [] {
      ScanNothing(a, b, max);
      return;
    }
    hide ScanLines;
    FirstLineOf(a, max);
    var i := LfAt(a);
    var rest := a[i + 1..];
    LfAtPrefix(a, b);
    ScanFirst(a + b, max);
    SliceAppend(a, b, i);
    ScanAppend(rest, b, max);
    Associative([DropCr(a[..i])], ScanLines(rest, max).lines, ScanLines(b, max).lines);
  }

  lemma ScanNothing(a: string, b: string, max: nat)
    requires a == []
    ensures a + b == b && ScanLines(a, max) == Scan([], true)
    ensures ScanLines(a, max).lines + ScanLines(b, max).lines == ScanLines(b, max).lines
  {
  }

  lemma SliceAppend<T>(a: seq<T>, b: seq<T>, i: nat)
    requires i < |a|
    ensures (a + b)[..i] == a[..i] && (a + b)[i + 1..] == a[i + 1..] + b
  {
  }

  lemma FirstLineOf(a: string, max: nat)
    requires a != [] && Terminated(a) && ScanLines(a, max).complete
    ensures LfAt(a) < |a| && LfAt(a) < max
    ensures var i := LfAt(a);
            var rest := a[i + 1..];
            && Terminated(rest) && ScanLines(rest, max).complete
            && ScanLines(a, max) == Scan([DropCr(a[..i])] + ScanLines(rest, max).lines, true)
  {
    NoLfBefore(a);
    assert a[|a| - 1] == '\n';
    hide DropCr;
  }

  lemma Associative<T>(a: seq<T>, b: seq<T>, c: seq<T>)
    ensures a + (b + c) == (a + b) + c
  {
  }

  lemma LfAtPrefix(a: string, b: string)
    requires LfAt(a) < |a|
    ensures LfAt(a + b) == LfAt(a)
  {
    NoLfBefore(a);
    NoLfBefore(a + b);
    hide LfAt;
    assert forall k :: 0 <= k < |a| ==> (a + b)[k] == a[k];
  }

  lemma {:induction false} SilentLines(lines: seq<string>)
    requires forall i :: 0 <= i < |lines| ==> DataOf(lines[i]) == ""
    ensures ParseLines(lines) == Parse([], "")
  {
    hide DataOf;
    if lines != [] {
      SilentLines(lines[..|lines| - 1]);
    }
  }

  lemma EventLines(e: Printed, max: nat)
    requires Printable(e, max) && KindScan(e, max).complete && max > 0
    ensures ScanLines(EncodeSse(e), max)
         == Scan(KindScan(e, max).lines + [FIELD + e.payload, ""], true)
    ensures Terminated(EncodeSse(e))
  {
    hide Plain, LfAt;
    var kind := if e.kind != "" then "event: " + e.kind + "\n" else "";
    var body := [FIELD + e.payload, ""];
    assert Plain("", max) by {
      EmptyIsPlain(max);
    }
    RenderThenScan(body, [], max);
    assert Render(body) == FIELD + e.payload + "\n" + ("" + "\n" + []) by {
      assert body[1..] == [""];
      assert [""][1..] == [];
    }
    assert Render(body) + [] == "data: " + e.payload + "\n\n";
    assert ScanLines([], max) == Scan([], true);
    hide ScanLines, Render;
    assert body + [] == body;
    assert EncodeSse(e) == kind + (Render(body) + []);
    if e.kind == "" {
      assert EncodeSse(e) == Render(body) + [];
    } else {
      ScanAppend(kind, Render(body) + [], max);
    }
  }

  lemma EmptyIsPlain(max: nat)
    requires max > 0
    ensures Plain("", max)
  {
  }

  lemma FieldData(payload: string)
    ensures DataOf(FIELD + payload) == payload && FIELD + payload != ""
  {
  }

  /** One printed event is parsed back as its payload alone, if its type is harmless. */
  lemma EventParses(e: Printed, max: nat)
    requires Printable(e, max) && Harmless(e, max) && max > 0
    ensures ParseLines(ScanLines(EncodeSse(e), max).lines) == Parse([e.payload], "")
  {
    EventLines(e, max);
    FieldData(e.payload);
    var kind := KindScan(e, max).lines;
    SilentLines(kind);
    hide ScanLines, DataOf, KindScan, EncodeSse;
    var data := FIELD + e.payload;
    assert ParseLines([data]) == Parse([], e.payload) by {
      assert [data][..0] == [];
    }
    assert ParseLines([data, ""]) == Parse([e.payload], "") by {
      assert [data, ""][..1] == [data];
    }
    ParseAppend(kind, [data, ""]);
  }

  lemma NothingPrinted(max: nat)
    ensures ScanLines([], max) == Scan([], true) && ParseLines([]) == Parse([], "")
  {
  }

  /** Round trip: parsing the concatenation of printed events delivers exactly their payloads, in order. */
  lemma {:induction false} PrintedEventsParse(es: seq<Printed>, max: nat)
    requires max > 0
    requires forall i :: 0 <= i < |es| ==> Printable(es[i], max) && Harmless(es[i], max)
    ensures ScanLines(EncodeAll(es), max).complete
    ensures ParseLines(ScanLines(EncodeAll(es), max).lines) == Parse(PayloadsOf(es), "")
    ensures Payloads(ScanLines(EncodeAll(es), max)) == PayloadsOf(es)
  {
    hide Printable, Harmless, EncodeSse, ScanLines, KindScan, Terminated, ParseLines;
    if es == [] {
      NothingPrinted(max);
    } else {
      PrintedEventsParse(es[1..], max);
      EventLines(es[0], max) by {
        HarmlessIsComplete(es[0], max);
      }
      EventParses(es[0], max);
      ScanAppend(EncodeSse(es[0]), EncodeAll(es[1..]), max);
      ParseAppend(ScanLines(EncodeSse(es[0]), max).lines, ScanLines(EncodeAll(es[1..]), max).lines);
      assert PayloadsOf(es) == [es[0].payload] + PayloadsOf(es[1..]);
    }
  }

  lemma HarmlessIsComplete(e: Printed, max: nat)
    requires Harmless(e, max)
    ensures KindScan(e, max).complete
  {
  }

  /** A type without line feeds is harmless. */
  lemma LfFreeKindIsHarmless(e: Printed, max: nat)
    requires LfFree(e.kind) && |e.kind| + 7 < max
    ensures Harmless(e, max)
  {
    if e.kind != "" {
      var line := "event: " + e.kind;
      assert line + "\n" + [] == "event: " + e.kind + "\n";
      LfAtAppend(line, []);
      var s := line + "\n" + [];
      ScanFirst(s, max);
      assert s[..|line|] == line && s[|line| + 1..] == [];
      assert ScanLines([], max) == Scan([], true);
      hide ScanLines, LfAt;
      assert KindScan(e, max) == Scan([DropCr(line)] + [], true);
      assert DropCr(line)[0] == 'e' && FIELD[0] == 'd';
    }
  }

  // ---- When the round trip fails ----

  function TotalLength(payloads: seq<string>): nat {
    if payloads == [] then 0 else TotalLength(payloads[..|payloads| - 1]) + |payloads[|payloads| - 1]|
  }

  function DataLength(lines: seq<string>): nat {
    if lines == [] then 0 else DataLength(lines[..|lines| - 1]) + |DataOf(lines[|lines| - 1])|
  }

  /** Nothing is lost or invented: the delivered and pending payloads are as long as the data lines. */
  lemma {:induction false} LengthConserved(lines: seq<string>)
    ensures TotalLength(ParseLines(lines).done) + |ParseLines(lines).data| == DataLength(lines)
  {
    if lines != [] {
      LengthConserved(lines[..|lines| - 1]);
      var p, line := ParseLines(lines[..|lines| - 1]), lines[|lines| - 1];
      assert DataOf("") == "";
      hide DataOf;
      if line == "" && p.data != "" {
        assert (p.done + [p.data])[..|p.done|] == p.done;
      }
    }
  }

  lemma {:induction false} DataLengthAppend(a: seq<string>, b: seq<string>)
    ensures DataLength(a + b) == DataLength(a) + DataLength(b)
  {
    hide DataOf;
    if b == [] {
      assert a + b == a;
    } else {
      DataLengthAppend(a, b[..|b| - 1]);
      assert (a + b)[..|a + b| - 1] == a + b[..|b| - 1];
    }
  }

  lemma {:induction false} DataLengthZero(lines: seq<string>)
    ensures DataLength(lines) == 0 <==> forall i :: 0 <= i < |lines| ==> DataOf(lines[i]) == ""
  {
    hide DataOf;
    if lines != [] {
      DataLengthZero(lines[..|lines| - 1]);
      var last := lines[|lines| - 1];
      if DataLength(lines) == 0 {
        forall i | 0 <= i < |lines| ensures DataOf(lines[i]) == "" {
          if i < |lines| - 1 {
            assert lines[..|lines| - 1][i] == lines[i];
          }
        }
      } else if DataLength(lines[..|lines| - 1]) != 0 {
        var i :| 0 <= i < |lines| - 1 && DataOf(lines[..|lines| - 1][i]) != "";
        assert DataOf(lines[i]) != "";
      }
    }
  }

  /** An event is delivered as its payload alone if and only if its type puts no data into it: no line of
      the type after the first starts with the data field and more. */
  lemma RoundTripExactly(e: Printed, max: nat)
    requires Printable(e, max) && KindScan(e, max).complete && max > 0
    ensures Payloads(ScanLines(EncodeSse(e), max)) == [e.payload] <==> Harmless(e, max)
  {
    EventLines(e, max);
    if Harmless(e, max) {
      EventParses(e, max);
    } else {
      var lines, kind := ScanLines(EncodeSse(e), max).lines, KindScan(e, max).lines;
      LengthConserved(lines);
      DataLengthZero(kind);
      FieldData(e.payload);
      hide ScanLines, DataOf, EncodeSse, KindScan;
      DataLengthAppend(kind, [FIELD + e.payload, ""]);
      var body := [FIELD + e.payload, ""];
      assert DataLength(body) >= |e.payload| by {
        assert body[..1] == [FIELD + e.payload] && [FIELD + e.payload][..0] == [];
      }
      var p := ParseLines(lines);
      if p.data != "" {
        assert (p.done + [p.data])[..|p.done|] == p.done;
      }
      assert TotalLength([e.payload]) == |e.payload| by {
        assert [e.payload][..0] == [];
      }
    }
  }

  const HARMFUL_KIND := "a\ndata: b"

  /** A type whose second line is read as data breaks the round trip, whatever the payload. */
  lemma HarmfulKindBreaks(payload: string, max: nat)
    requires Printable(Printed(HARMFUL_KIND, payload), max) && max > 10
    ensures Payloads(ScanLines(EncodeSse(Printed(HARMFUL_KIND, payload)), max)) != [payload]
  {
    hide ScanLines, Printable, EncodeSse;
    var e := Printed(HARMFUL_KIND, payload);
    var first, second := "event: a", "data: b";
    assert Plain(first, max) && Plain(second, max);
    ScanOneLine(first, second + "\n" + [], max);
    ScanOneLine(second, [], max);
    ScanNothing([], [], max);
    assert first + "\n" + (second + "\n" + []) == "event: " + e.kind + "\n";
    assert KindScan(e, max).lines[1] == second;
    assert DataOf(second) == "b" by {
      FieldData("b");
      assert FIELD + "b" == second;
    }
    assert !Harmless(e, max);
    RoundTripExactly(e, max);
  }

  /** An object with such a type, as it is printed. */
  lemma HarmfulKindExists()
    ensures var e := Printed(HARMFUL_KIND, "{\"type\":\"a\\ndata: b\"}");
            Printable(e, 64) && Payloads(ScanLines(EncodeSse(e), 64)) != [e.payload]
  {
    hide ScanLines, EncodeSse, Payloads;
    var payload := "{\"type\":\"a\\ndata: b\"}";
    assert |FIELD + payload| == 27 && (FIELD + payload)[26] == '}';
    assert LfFree(payload) && LfFree(FIELD);
    HarmfulKindBreaks(payload, 64);
  }

  // ---- Data over several lines, and lines of other fields ----

  function Joined(payloads: seq<string>): string {
    if payloads == [] then "" else Joined(payloads[..|payloads| - 1]) + payloads[|payloads| - 1]
  }

  function AsDataLines(payloads: seq<string>): seq<string> {
    if payloads == [] then []
    else AsDataLines(payloads[..|payloads| - 1]) + ["data: " + payloads[|payloads| - 1]]
  }

  lemma DataLineAdds(p: Parse, payload: string)
    ensures ParseLine(p, "data: " + payload) == Parse(p.done, p.data + payload)
  {
    assert FIELD == "data: " && ("data: " + payload)[|FIELD|..] == payload;
  }

  /** The data lines of an event are joined without anything between them; nothing is delivered before the blank
      line, and nothing by it if they are all empty. */
  lemma {:induction false} DataLinesJoin(payloads: seq<string>)
    ensures ParseLines(AsDataLines(payloads)) == Parse([], Joined(payloads))
    ensures ParseLines(AsDataLines(payloads) + [""]).done == if Joined(payloads) == "" then [] else [Joined(payloads)]
  {
    hide DataOf, IsData;
    var lines := AsDataLines(payloads);
    if payloads != [] {
      var front, last := payloads[..|payloads| - 1], payloads[|payloads| - 1];
      DataLinesJoin(front);
      DataLineAdds(ParseLines(AsDataLines(front)), last);
      assert lines[..|lines| - 1] == AsDataLines(front);
    }
    assert (lines + [""])[..|lines|] == lines;
  }

  /** A line that is neither blank nor a data line makes no difference, wherever it stands. */
  lemma {:induction false} OtherLinesIgnored(a: seq<string>, line: string, b: seq<string>)
    requires line != "" && !("data: " <= line)
    ensures ParseLines(a + [line] + b) == ParseLines(a + b)
  {
    var all := a + [line] + b;
    if b == [] {
      assert all[..|a|] == a && a + b == a && FIELD == "data: ";
      assert ParseLines(a).data + "" == ParseLines(a).data;
    } else {
      OtherLinesIgnored(a, line, b[..|b| - 1]);
      assert all[..|all| - 1] == a + [line] + b[..|b| - 1];
      assert (a + b)[..|a + b| - 1] == a + b[..|b| - 1];
    }
  }

  /** What is delivered decodes one payload each, up to the first that does not decode. */
  lemma {:induction false} DecodedExactly<E>(unmarshal: string -> Option<E>, payloads: seq<string>)
    ensures var n := |Decoded(unmarshal, payloads)|;
            && n <= |payloads| && (n < |payloads| ==> unmarshal(payloads[n]).None?)
            && forall i :: 0 <= i < n ==> unmarshal(payloads[i]) == Some(Decoded(unmarshal, payloads)[i])
  {
    if payloads != [] && unmarshal(payloads[0]).Some? {
      DecodedExactly(unmarshal, payloads[1..]);
      forall i | 0 <= i < |Decoded(unmarshal, payloads)|
        ensures unmarshal(payloads[i]) == Some(Decoded(unmarshal, payloads)[i])
      {
        if i > 0 {
          assert payloads[i] == payloads[1..][i - 1];
        }
      }
    }
  }
}
