/** The filter that passes a model server's event stream to the client while reading the token usage out
    of it (tokencount/extractor.go, processStream). */
module Extractor {
  import opened Text
  import opened Usage
  import opened Sse

  /** What the extractor finds in a payload: nothing, or an object with or without usage (directly or in
      its `response`), whose `choices` may be an empty array. A usage that does not decode counts as one. */
  datatype Chunk = NoObject | Chunk(hasUsage: bool, usage: Option<Tokens>, emptyChoices: bool)

  type Decoder = string -> Chunk

  const DONE := "[DONE]"
  const MAX_LINE: nat := 65536

  function ChunkOf(decode: Decoder, payload: string): Chunk {
    if payload == DONE then NoObject else decode(payload)
  }

  predicate UsageOnlyPayload(decode: Decoder, payload: string) {
    var k := ChunkOf(decode, payload);
    k.Chunk? && k.hasUsage && k.emptyChoices
  }

  predicate UsageOnly(decode: Decoder, line: string) {
    IsData(line) && UsageOnlyPayload(decode, DataOf(line))
  }

  /** Line i reaches the client: always if it asked for usage, otherwise unless it is a usage-only line or
      the blank line right after one. */
  predicate Keeps(decode: Decoder, wanted: bool, lines: seq<string>, i: nat)
    requires i < |lines|
  {
    wanted || (!UsageOnly(decode, lines[i]) && !(lines[i] == "" && i > 0 && UsageOnly(decode, lines[i - 1])))
  }

  /** Those of the first i lines that reach the client. */
  function Kept(decode: Decoder, wanted: bool, lines: seq<string>, i: nat): seq<string>
    requires i <= |lines|
  {
    if i == 0 then []
    else Kept(decode, wanted, lines, i - 1) + (if Keeps(decode, wanted, lines, i - 1) then [lines[i - 1]] else [])
  }

  // ---- Usage ----

  function ChunkAt(decode: Decoder, line: string): Chunk {
    if IsData(line) then ChunkOf(decode, DataOf(line)) else NoObject
  }

  function ReportIn(chunk: Chunk): seq<Tokens> {
    if chunk.Chunk? && chunk.hasUsage && chunk.usage.Some? then [Normalize(chunk.usage.value)] else []
  }

  /** The usage reports of the first i lines, normalized. */
  function Reports(decode: Decoder, lines: seq<string>, i: nat): seq<Tokens>
    requires i <= |lines|
  {
    if i == 0 then [] else Reports(decode, lines, i - 1) + ReportIn(ChunkAt(decode, lines[i - 1]))
  }

  /** The last positive element, or zero. */
  function LastPositive(xs: seq<int>): (r: int)
    ensures r > 0 ==> r in xs
    ensures r <= 0 ==> r == 0 && forall x :: x in xs ==> x <= 0
  {
    if xs == [] then 0
    else
      assert xs == xs[..|xs| - 1] + [xs[|xs| - 1]];
      if xs[|xs| - 1] > 0 then xs[|xs| - 1]
      else LastPositive(xs[..|xs| - 1])
  }

  function Prompts(reports: seq<Tokens>): seq<int> {
    seq(|reports|, i requires 0 <= i < |reports| => reports[i].prompt)
  }

  function Completions(reports: seq<Tokens>): seq<int> {
    seq(|reports|, i requires 0 <= i < |reports| => reports[i].completion)
  }

  function Totals(reports: seq<Tokens>): seq<int> {
    seq(|reports|, i requires 0 <= i < |reports| => reports[i].total)
  }

  /** Per field, the last positive value reported. */
  function Merged(reports: seq<Tokens>): Tokens {
    Tokens(LastPositive(Prompts(reports)), LastPositive(Completions(reports)), LastPositive(Totals(reports)), 0, 0)
  }

  /** What the usage handler is called with, at most once: the merged usage, its total filled in if zero. */
  function Handled(reports: seq<Tokens>): seq<Tokens> {
    var u := Merged(reports);
    if u.total <= 0 && u.completion <= 0 then []
    else [u.(total := if u.total == 0 then u.prompt + u.completion else u.total)]
  }

  lemma LastPositiveSnoc(xs: seq<int>, x: int)
    ensures LastPositive(xs + [x]) == if x > 0 then x else LastPositive(xs)
  {
    assert (xs + [x])[..|xs|] == xs;
  }

  lemma MergeStep(reports: seq<Tokens>, u: Tokens)
    ensures var before, after := Merged(reports), Merged(reports + [u]);
            && after.prompt == (if u.prompt > 0 then u.prompt else before.prompt)
            && after.completion == (if u.completion > 0 then u.completion else before.completion)
            && after.total == (if u.total > 0 then u.total else before.total)
  {
    hide LastPositive;
    LastPositiveSnoc(Prompts(reports), u.prompt);
    LastPositiveSnoc(Completions(reports), u.completion);
    LastPositiveSnoc(Totals(reports), u.total);
    assert Prompts(reports + [u]) == Prompts(reports) + [u.prompt];
    assert Completions(reports + [u]) == Completions(reports) + [u.completion];
    assert Totals(reports + [u]) == Totals(reports) + [u.total];
  }

  /** A usage report reaches the handler exactly when some report has a positive total or completion, and
      then its total is positive. */
  lemma HandledExactly(reports: seq<Tokens>)
    ensures |Handled(reports)| <= 1
    ensures Handled(reports) != []
            <==> exists i :: 0 <= i < |reports| && (reports[i].total > 0 || reports[i].completion > 0)
    ensures Handled(reports) != [] ==> Handled(reports)[0].total > 0
  {
    var totals, completions := Totals(reports), Completions(reports);
    hide LastPositive;
    if LastPositive(totals) > 0 {
      var i :| 0 <= i < |totals| && totals[i] == LastPositive(totals);
      assert reports[i].total > 0;
    } else if LastPositive(completions) > 0 {
      var i :| 0 <= i < |completions| && completions[i] == LastPositive(completions);
      assert reports[i].completion > 0;
    } else {
      forall i | 0 <= i < |reports| ensures reports[i].total <= 0 && reports[i].completion <= 0 {
        assert totals[i] in totals && completions[i] in completions;
      }
    }
  }

  // ---- Both, read off the lines themselves ----

  /** A data line, not the end mark, whose object has usage. */
  predicate HasUsage(decode: Decoder, line: string) {
    "data: " <= line && line[6..] != "[DONE]" && decode(line[6..]).Chunk? && decode(line[6..]).hasUsage
  }

  /** Such a line whose choices are an empty array. */
  predicate HasOnlyUsage(decode: Decoder, line: string) {
    HasUsage(decode, line) && decode(line[6..]).emptyChoices
  }

  /** The raw report on a line, if there is one that decodes. */
  function Reported(decode: Decoder, line: string): Option<Tokens> {
    if HasUsage(decode, line) then decode(line[6..]).usage else None
  }

  lemma LineIs(decode: Decoder, line: string)
    ensures UsageOnly(decode, line) <==> HasOnlyUsage(decode, line)
    ensures ReportIn(ChunkAt(decode, line)) == if Reported(decode, line).Some?
                                               then [Normalize(Reported(decode, line).value)] else []
  {
    hide Normalize;
    assert |"data: "| == 6;
  }

  /** All lines for a client that asked for usage, else those that are neither a line with usage and no choices
      nor the blank line right behind one. */
  predicate Receives(decode: Decoder, wanted: bool, lines: seq<string>, i: nat)
    requires i < |lines|
  {
    || wanted
    || (!HasOnlyUsage(decode, lines[i]) && !(lines[i] == "" && i > 0 && HasOnlyUsage(decode, lines[i - 1])))
  }

  lemma KeepsIs(decode: Decoder, wanted: bool, lines: seq<string>, i: nat)
    requires i < |lines|
    ensures Keeps(decode, wanted, lines, i) <==> Receives(decode, wanted, lines, i)
  {
    hide UsageOnly, HasOnlyUsage;
    LineIs(decode, lines[i]);
    if i > 0 {
      LineIs(decode, lines[i - 1]);
    }
  }

  /** The client receives exactly these lines, in order and unchanged. */
  lemma {:induction false} KeptExactly(decode: Decoder, wanted: bool, lines: seq<string>, i: nat)
    returns (kept: seq<nat>)
    requires i <= |lines|
    ensures |kept| == |Kept(decode, wanted, lines, i)|
    ensures forall p, q :: 0 <= p < q < |kept| ==> kept[p] < kept[q]
    ensures forall p :: 0 <= p < |kept| ==> kept[p] < i && Kept(decode, wanted, lines, i)[p] == lines[kept[p]]
    ensures forall h :: 0 <= h < i ==> (h in kept <==> Receives(decode, wanted, lines, h))
  {
    hide Keeps, Receives;
    if i == 0 {
      kept := [];
    } else {
      kept := KeptExactly(decode, wanted, lines, i - 1);
      KeepsIs(decode, wanted, lines, i - 1);
      if Receives(decode, wanted, lines, i - 1) {
        kept := kept + [i - 1];
      }
    }
  }

  /** Line `last` is the last of the first i lines on which a counter is positive; -1 stands for none. */
  ghost predicate LastOn(decode: Decoder, lines: seq<string>, i: nat, counter: Tokens -> int, last: int)
    requires i <= |lines|
  {
    && -1 <= last < i
    && (last >= 0 ==> Reported(decode, lines[last]).Some? && counter(Reported(decode, lines[last]).value) > 0)
    && (forall m :: last < m < i && Reported(decode, lines[m]).Some? ==>
          counter(Reported(decode, lines[m]).value) <= 0)
  }

  /** The counter on that line, or zero. */
  function CounterAt(decode: Decoder, lines: seq<string>, counter: Tokens -> int, last: int): int {
    if 0 <= last < |lines| && Reported(decode, lines[last]).Some? then counter(Reported(decode, lines[last]).value)
    else 0
  }

  lemma LastOnStep(decode: Decoder, lines: seq<string>, i: nat, counter: Tokens -> int, last: int)
    returns (next: int)
    requires i < |lines| && LastOn(decode, lines, i, counter, last)
    ensures LastOn(decode, lines, i + 1, counter, next)
    ensures var r, before := Reported(decode, lines[i]), CounterAt(decode, lines, counter, last);
            CounterAt(decode, lines, counter, next)
              == if r.Some? && counter(r.value) > 0 then counter(r.value) else before
  {
    hide Reported;
    next := if Reported(decode, lines[i]).Some? && counter(Reported(decode, lines[i]).value) > 0 then i else last;
  }

  /** Each counter of the merged usage is that of the last line on which it is positive, whether its chunk has
      choices or not. */
  lemma {:induction false} MergedExactly(decode: Decoder, lines: seq<string>, i: nat)
    returns (prompt: int, completion: int, total: int)
    requires i <= |lines|
    ensures LastOn(decode, lines, i, PromptOf, prompt) && LastOn(decode, lines, i, CompletionOf, completion)
    ensures LastOn(decode, lines, i, (u: Tokens) => u.total, total)
    ensures var u := Merged(Reports(decode, lines, i));
            && u.prompt == CounterAt(decode, lines, PromptOf, prompt)
            && u.completion == CounterAt(decode, lines, CompletionOf, completion)
            && u.total == CounterAt(decode, lines, (u: Tokens) => u.total, total)
  {
    hide Reported, Merged, Normalize, PromptOf, CompletionOf, ReportIn, ChunkAt, LastOn, CounterAt;
    var totalOf := (u: Tokens) => u.total;
    if i == 0 {
      prompt, completion, total := -1, -1, -1;
      NothingMerged(decode, lines, PromptOf);
      NothingMerged(decode, lines, CompletionOf);
      NothingMerged(decode, lines, totalOf);
    } else {
      prompt, completion, total := MergedExactly(decode, lines, i - 1);
      prompt := LastOnStep(decode, lines, i - 1, PromptOf, prompt);
      completion := LastOnStep(decode, lines, i - 1, CompletionOf, completion);
      total := LastOnStep(decode, lines, i - 1, totalOf, total);
      LineIs(decode, lines[i - 1]);
      var reports, r := Reports(decode, lines, i - 1), Reported(decode, lines[i - 1]);
      if r.Some? {
        NormalizedExactly(r.value);
        MergeStep(reports, Normalize(r.value));
      } else {
        assert reports + [] == reports;
      }
    }
  }

  lemma NothingMerged(decode: Decoder, lines: seq<string>, counter: Tokens -> int)
    ensures Merged([]) == ZERO
    ensures LastOn(decode, lines, 0, counter, -1) && CounterAt(decode, lines, counter, -1) == 0
  {
  }

  /** The usage handler is called exactly if some line has a positive total or completion, once, with each counter
      from its own last line; a total that is nowhere positive is the sum of the two others. */
  lemma UsageFoundExactly(decode: Decoder, lines: seq<string>) returns (prompt: int, completion: int, total: int)
    ensures LastOn(decode, lines, |lines|, PromptOf, prompt)
    ensures LastOn(decode, lines, |lines|, CompletionOf, completion)
    ensures LastOn(decode, lines, |lines|, (u: Tokens) => u.total, total)
    ensures var handled := Handled(Reports(decode, lines, |lines|));
            var p, c := CounterAt(decode, lines, PromptOf, prompt), CounterAt(decode, lines, CompletionOf, completion);
            var t := CounterAt(decode, lines, (u: Tokens) => u.total, total);
            && |handled| == (if total < 0 && completion < 0 then 0 else 1)
            && (handled != [] ==>
                  && handled[0].prompt == p && handled[0].completion == c
                  && handled[0].total == if total < 0 then p + c else t)
  {
    hide Reported, Merged, PromptOf, CompletionOf, Reports;
    prompt, completion, total := MergedExactly(decode, lines, |lines|);
  }

  // ---- The scan loop ----

  class StreamingTokenExtractor {
    const decode: Decoder
    const clientRequestedUsage: bool
    var usage: Tokens
    var output: string
    var handled: seq<Tokens>
    var completed: bool

    constructor (decode: Decoder, clientRequestedUsage: bool)
      ensures this.decode == decode && this.clientRequestedUsage == clientRequestedUsage
      ensures usage == ZERO && output == [] && handled == [] && !completed
    {
      this.decode, this.clientRequestedUsage := decode, clientRequestedUsage;
      usage, output, handled, completed := ZERO, [], [], false;
    }

    /** Updates the usage from one chunk and says whether it is a usage-only one. */
    method Inspect(chunk: Chunk, ghost reports: seq<Tokens>) returns (usageOnly: bool)
      requires usage == Merged(reports)
      modifies this`usage
      ensures usageOnly <==> chunk.Chunk? && chunk.hasUsage && chunk.emptyChoices
      ensures usage == Merged(reports + ReportIn(chunk))
    {
      hide LastPositive;
      usageOnly := false;
      assert reports + [] == reports;
      if chunk.Chunk? && chunk.hasUsage {
        if chunk.usage.Some? {
          var u := Normalize(chunk.usage.value);
          MergeStep(reports, u);
          if u.prompt > 0 {
            usage := usage.(prompt := u.prompt);
          }
          if u.completion > 0 {
            usage := usage.(completion := u.completion);
          }
          if u.total > 0 {
            usage := usage.(total := u.total);
          }
        }
        usageOnly := chunk.emptyChoices;
      }
    }

    /** Copies the stream to the client, less the lines it did not ask for, and reports the usage once. */
    method ProcessStream(input: string)
      requires usage == ZERO && output == [] && handled == []
      modifies this
      ensures var lines := ScanLines(input, MAX_LINE).lines;
              && output == Render(Kept(decode, clientRequestedUsage, lines, |lines|))
              && handled == Handled(Reports(decode, lines, |lines|))
              && completed
    {
      hide ScanLines, IsData, DataOf, ChunkOf, Merged, Keeps, UsageOnly, ChunkAt, ReportIn, Render;
      var lines := ScanLines(input, MAX_LINE).lines;
      var lastLineWasFiltered := false;
      ghost var wanted := clientRequestedUsage;
      NothingYet();
      for i := 0 to |lines|
        invariant lastLineWasFiltered <==> !wanted && i > 0 && UsageOnly(decode, lines[i - 1])
        invariant output == Render(Kept(decode, wanted, lines, i))
        invariant usage == Merged(Reports(decode, lines, i))
        invariant handled == []
      {
        var line := lines[i];
        ghost var reports, kept := Reports(decode, lines, i), Kept(decode, wanted, lines, i);
        LineFacts(decode, wanted, lines, i);
        if lastLineWasFiltered && line == "" {
          assert reports + [] == reports && kept + [] == kept;
          lastLineWasFiltered := false;
          continue;
        }
        var shouldWrite := true;
        lastLineWasFiltered := false;
        var usageOnly := Inspect(if IsData(line) then ChunkOf(decode, DataOf(line)) else NoObject, reports);
        if usageOnly && !clientRequestedUsage {
          shouldWrite := false;
          lastLineWasFiltered := true;
        }
        RenderSnoc(kept, line);
        assert kept + [] == kept;
        if shouldWrite {
          if line == "" {
            output := output + "\n";
          } else {
            output := output + (line + "\n");
          }
        }
      }
      MergedShape(Reports(decode, lines, |lines|));
      Finish();
    }

    /** Fills in the total and calls the usage handler. */
    method Finish()
      requires handled == [] && usage.input == usage.output == 0
      modifies this`usage, this`handled, this`completed
      ensures completed
      ensures forall reports :: old(usage) == Merged(reports) ==> handled == Handled(reports)
    {
      hide LastPositive;
      if usage.total > 0 || usage.completion > 0 {
        if usage.total == 0 && usage.completion > 0 {
          usage := usage.(total := usage.prompt + usage.completion);
        }
        handled := handled + [usage];
      }
      completed := true;
    }
  }

  lemma MergedShape(reports: seq<Tokens>)
    ensures Merged(reports).input == 0 && Merged(reports).output == 0
  {
  }

  lemma NothingYet()
    ensures Merged([]) == ZERO && Render([]) == []
  {
  }

  /** What the filter decides about line i. */
  lemma LineFacts(decode: Decoder, wanted: bool, lines: seq<string>, i: nat)
    requires i < |lines|
    ensures UsageOnly(decode, lines[i]) <==>
              var k := ChunkAt(decode, lines[i]); k.Chunk? && k.hasUsage && k.emptyChoices
    ensures ChunkAt(decode, lines[i]) == if IsData(lines[i]) then ChunkOf(decode, DataOf(lines[i])) else NoObject
    ensures lines[i] == "" ==> !UsageOnly(decode, lines[i]) && ReportIn(ChunkAt(decode, lines[i])) == []
    ensures Keeps(decode, wanted, lines, i) <==>
              wanted || (!UsageOnly(decode, lines[i]) && !(lines[i] == "" && i > 0 && UsageOnly(decode, lines[i - 1])))
  {
    hide IsData, ChunkOf, DataOf;
    BlankIsNoData();
  }

  lemma BlankIsNoData()
    ensures !IsData("")
  {
  }

  lemma RenderSnoc(lines: seq<string>, line: string)
    ensures Render(lines + [line]) == Render(lines) + (line + "\n")
  {
    RenderAppend(lines, [line]);
    assert [line][1..] == [];
    assert Render([line]) == line + "\n" + Render([]);
  }

  // ---- What the filter preserves ----

  predicate NoBlankPair(lines: seq<string>) {
    forall i :: 0 < i < |lines| ==> lines[i - 1] != "" || lines[i] != ""
  }

  /** The filter never creates two blank lines in a row. */
  lemma {:induction false} NoBlankPairCreated(decode: Decoder, wanted: bool, lines: seq<string>, i: nat)
    requires i <= |lines| && NoBlankPair(lines)
    ensures var kept := Kept(decode, wanted, lines, i);
            && NoBlankPair(kept)
            && (kept != [] && kept[|kept| - 1] == "" ==>
                  lines[i - 1] == "" || (!wanted && UsageOnly(decode, lines[i - 1])))
  {
    hide UsageOnly;
    if i > 0 {
      NoBlankPairCreated(decode, wanted, lines, i - 1);
      assert i > 1 ==> lines[i - 2] != "" || lines[i - 1] != "";
    }
  }

  lemma {:induction false} EverythingKept(decode: Decoder, lines: seq<string>, i: nat)
    requires i <= |lines|
    ensures Kept(decode, true, lines, i) == lines[..i]
  {
    hide UsageOnly;
    if i > 0 {
      EverythingKept(decode, lines, i - 1);
    }
  }

  /** When the client asked for usage, the bytes it receives are those of the model server if and only if
      the stream is LF-terminated, has no CR LF and no line over the scanner's limit. */
  lemma TransparentExactly(decode: Decoder, input: string)
    ensures var scan := ScanLines(input, MAX_LINE);
            Render(Kept(decode, true, scan.lines, |scan.lines|)) == input
            <==> scan.complete && Terminated(input) && !HasCrLf(input)
  {
    hide ScanLines, Kept, Render, HasCrLf;
    var lines := ScanLines(input, MAX_LINE).lines;
    EverythingKept(decode, lines, |lines|);
    assert lines[..|lines|] == lines;
    CopiedExactly(input, MAX_LINE);
  }

  // ---- Filtering and parsing commute ----

  function Unfiltered(decode: Decoder, payloads: seq<string>): seq<string> {
    if payloads == [] then []
    else
      Unfiltered(decode, payloads[..|payloads| - 1])
      + (if UsageOnlyPayload(decode, payloads[|payloads| - 1]) then [] else [payloads[|payloads| - 1]])
  }

  /** Every data line starts a new event. */
  predicate OneDataLinePerEvent(lines: seq<string>) {
    forall i :: 0 <= i < |lines| && IsData(lines[i]) ==> ParseLines(lines[..i]).data == ""
  }

  /** How the parser's state on the filtered lines relates to its state on all lines. */
  predicate Filters(decode: Decoder, all: Parse, kept: Parse) {
    && kept.done == Unfiltered(decode, all.done)
    && kept.data == (if UsageOnlyPayload(decode, all.data) then "" else all.data)
  }

  lemma BlankLineStep(decode: Decoder, all: Parse, kept: Parse)
    requires Filters(decode, all, kept) && !UsageOnlyPayload(decode, "")
    ensures Filters(decode, ParseLine(all, ""), ParseLine(kept, ""))
    ensures UsageOnlyPayload(decode, all.data) ==> Filters(decode, ParseLine(all, ""), kept)
  {
    hide UsageOnlyPayload, DataOf;
    UnfilteredSnoc(decode, all.done, all.data);
  }

  lemma DataLineStep(decode: Decoder, all: Parse, kept: Parse, line: string)
    requires Filters(decode, all, kept) && !UsageOnlyPayload(decode, "")
    requires line != "" && all.data == ""
    ensures ParseLine(all, line).data == DataOf(line)
    ensures Filters(decode, ParseLine(all, line),
                    if UsageOnlyPayload(decode, DataOf(line)) then kept else ParseLine(kept, line))
  {
    hide UsageOnlyPayload, DataOf;
    assert "" + DataOf(line) == DataOf(line);
  }

  lemma OtherLineStep(decode: Decoder, all: Parse, kept: Parse, line: string)
    requires Filters(decode, all, kept) && line != "" && DataOf(line) == ""
    ensures Filters(decode, ParseLine(all, line), ParseLine(kept, line))
  {
    hide UsageOnlyPayload, DataOf;
    assert all.data + "" == all.data && kept.data + "" == kept.data;
  }

  lemma FiltersNothing(decode: Decoder, lines: seq<string>)
    requires decode("").NoObject?
    ensures !UsageOnlyPayload(decode, "")
    ensures Filters(decode, ParseLines(lines[..0]), ParseLines(Kept(decode, false, lines, 0)))
  {
  }

  lemma ParseSnoc(lines: seq<string>, line: string)
    ensures ParseLines(lines + [line]) == ParseLine(ParseLines(lines), line)
  {
    assert (lines + [line])[..|lines|] == lines;
  }

  /** Parsing what was kept gives what was parsed, less the usage-only payloads. */
  lemma {:induction false} FilterCommutes(decode: Decoder, lines: seq<string>, i: nat)
    requires i <= |lines| && OneDataLinePerEvent(lines)
    requires decode("").NoObject?
    ensures Filters(decode, ParseLines(lines[..i]), ParseLines(Kept(decode, false, lines, i)))
    ensures i > 0 && UsageOnly(decode, lines[i - 1]) ==> ParseLines(lines[..i]).data == DataOf(lines[i - 1])
  {
    hide ParseLine, DataOf, IsData, Filters, ParseLines;
    if i == 0 {
      FiltersNothing(decode, lines);
      return;
    }
    FilterCommutes(decode, lines, i - 1);
    var line := lines[i - 1];
    var all, kept := ParseLines(lines[..i - 1]), ParseLines(Kept(decode, false, lines, i - 1));
    assert lines[..i] == lines[..i - 1] + [line];
    ParseSnoc(lines[..i - 1], line);
    ParseSnoc(Kept(decode, false, lines, i - 1), line);
    assert Kept(decode, false, lines, i - 1) + [] == Kept(decode, false, lines, i - 1);
    FiltersNothing(decode, lines);
    BlankIsNoData();
    if line == "" {
      BlankLineStep(decode, all, kept);
    } else if IsData(line) {
      DataLineStep(decode, all, kept, line);
    } else {
      NoDataContributes(line);
      OtherLineStep(decode, all, kept, line);
    }
  }

  lemma NoDataContributes(line: string)
    requires !IsData(line)
    ensures DataOf(line) == ""
  {
  }

  lemma UnfilteredSnoc(decode: Decoder, payloads: seq<string>, p: string)
    ensures Unfiltered(decode, payloads + [p])
         == Unfiltered(decode, payloads) + (if UsageOnlyPayload(decode, p) then [] else [p])
  {
    assert (payloads + [p])[..|payloads|] == payloads;
  }

  // ---- Lines that end in CR even without their line end ----

  /** What a scanner makes of lines that were written. */
  function WithoutCr(lines: seq<string>): seq<string> {
    if lines == [] then [] else WithoutCr(lines[..|lines| - 1]) + [DropCr(lines[|lines| - 1])]
  }

  /** No data line ends in CR. */
  predicate DataLinesClean(lines: seq<string>) {
    forall i :: 0 <= i < |lines| && IsData(lines[i]) ==> NoTrailingCr(lines[i])
  }

  predicate Scannable(lines: seq<string>, max: nat) {
    forall i :: 0 <= i < |lines| ==> LfFree(lines[i]) && |lines[i]| < max
  }

  lemma ScanTerminated(line: string, max: nat)
    requires LfFree(line) && |line| < max
    ensures ScanLines(line + "\n", max) == Scan([DropCr(line)], true) && Terminated(line + "\n")
  {
    hide ScanLines;
    LfAtAppend(line, []);
    assert line + "\n" + [] == line + "\n";
    ScanFirst(line + "\n", max);
    assert (line + "\n")[..|line|] == line && (line + "\n")[|line| + 1..] == [];
    ScanNothing([], [], max);
    assert [DropCr(line)] + [] == [DropCr(line)];
  }

  /** Written lines are read back without their trailing CR. */
  lemma {:induction false} RenderThenRescan(lines: seq<string>, max: nat)
    requires Scannable(lines, max)
    ensures ScanLines(Render(lines), max) == Scan(WithoutCr(lines), true) && Terminated(Render(lines))
  {
    hide ScanLines, Render, DropCr;
    if lines == [] {
      NothingYet();
      ScanNothing([], [], max);
    } else {
      var front, line := lines[..|lines| - 1], lines[|lines| - 1];
      RenderThenRescan(front, max);
      RenderSnoc(front, line);
      assert front + [line] == lines;
      ScanTerminated(line, max);
      ScanAppend(Render(front), line + "\n", max);
    }
  }

  /** All payloads of a stream that ends here. */
  function Flush(p: Parse): seq<string> {
    if p.data != "" then p.done + [p.data] else p.done
  }

  /** Without their trailing CR the lines give the same payloads, some perhaps delivered earlier. */
  predicate Earlier(p: Parse, q: Parse) {
    Flush(p) == Flush(q) && (q.data == "" || q == p)
  }

  lemma DropStep(p: Parse, q: Parse, line: string)
    requires Earlier(p, q)
    requires IsData(line) ==> p.data == "" && NoTrailingCr(line)
    ensures Earlier(ParseLine(p, line), ParseLine(q, DropCr(line)))
  {
    if IsData(line) {
      hide DataOf;
      assert DropCr(line) == line;
    } else {
      DroppedIsNoData(line);
      NoDataContributes(line);
      NoDataContributes(DropCr(line));
      hide DataOf, IsData, DropCr;
      assert p.data + "" == p.data && q.data + "" == q.data;
      assert line == "" ==> DropCr(line) == "" by {
        BlankHasNoCr();
      }
    }
  }

  lemma BlankHasNoCr()
    ensures DropCr("") == ""
  {
  }

  lemma DroppedIsNoData(line: string)
    requires !IsData(line)
    ensures !IsData(DropCr(line))
  {
    assert DropCr(line) <= line;
  }

  lemma WithoutCrSnoc(lines: seq<string>, line: string)
    ensures WithoutCr(lines + [line]) == WithoutCr(lines) + [DropCr(line)]
  {
    assert (lines + [line])[..|lines|] == lines;
  }

  lemma {:induction false} CleanLinesParseAlike(lines: seq<string>, i: nat)
    requires i <= |lines| && OneDataLinePerEvent(lines) && DataLinesClean(lines)
    ensures Earlier(ParseLines(lines[..i]), ParseLines(WithoutCr(lines[..i])))
  {
    hide ParseLine, ParseLines, WithoutCr, DropCr, IsData, NoTrailingCr, Earlier;
    if i == 0 {
      NothingEarlier();
    } else {
      CleanLinesParseAlike(lines, i - 1);
      var front, line := lines[..i - 1], lines[i - 1];
      assert lines[..i] == front + [line];
      WithoutCrSnoc(front, line);
      ParseSnoc(front, line);
      ParseSnoc(WithoutCr(front), DropCr(line));
      DropStep(ParseLines(front), ParseLines(WithoutCr(front)), line);
    }
  }

  lemma NothingEarlier()
    ensures Earlier(ParseLines([][..0]), ParseLines(WithoutCr([][..0])))
    ensures Earlier(ParseLines([]), ParseLines(WithoutCr([])))
  {
  }

  /** Dropping a CR from a data line makes the payloads shorter. */
  lemma {:induction false} CrShortensData(lines: seq<string>)
    ensures DataLength(WithoutCr(lines)) <= DataLength(lines)
    ensures DataLength(WithoutCr(lines)) == DataLength(lines) <==> DataLinesClean(lines)
  {
    hide DataOf, IsData, DropCr, NoTrailingCr;
    if lines != [] {
      var front, line := lines[..|lines| - 1], lines[|lines| - 1];
      CrShortensData(front);
      CrShortensLine(line);
      var dropped := WithoutCr(front);
      assert (dropped + [DropCr(line)])[..|dropped|] == dropped;
      assert DataLinesClean(lines) <==> DataLinesClean(front) && (IsData(line) ==> NoTrailingCr(line));
    }
  }

  lemma CrShortensLine(line: string)
    ensures |DataOf(DropCr(line))| <= |DataOf(line)|
    ensures |DataOf(DropCr(line))| == |DataOf(line)| <==> (IsData(line) ==> NoTrailingCr(line))
  {
    if !IsData(line) {
      DroppedIsNoData(line);
    } else if !NoTrailingCr(line) {
      assert |line| > |FIELD| && FIELD == line[..|FIELD|] by {
        FieldHasNoCr(line);
      }
      assert DropCr(line)[..|FIELD|] == FIELD;
    }
  }

  lemma FieldHasNoCr(line: string)
    requires IsData(line) && !NoTrailingCr(line)
    ensures |line| > |FIELD|
  {
    assert FIELD[|FIELD| - 1] == ' ';
  }

  /** The payloads of a whole stream have the length of its data. */
  lemma PayloadsHaveDataLength(lines: seq<string>)
    ensures TotalLength(Payloads(Scan(lines, true))) == DataLength(lines)
  {
    LengthConserved(lines);
    var p := ParseLines(lines);
    assert (p.done + [p.data])[..|p.done|] == p.done;
  }

  lemma {:induction false} KeptStartEvents(decode: Decoder, lines: seq<string>, i: nat)
    requires i <= |lines| && OneDataLinePerEvent(lines) && decode("").NoObject?
    ensures OneDataLinePerEvent(Kept(decode, false, lines, i))
  {
    hide ParseLines, IsData, UsageOnly;
    if i > 0 {
      KeptStartEvents(decode, lines, i - 1);
      FilterCommutes(decode, lines, i - 1);
      FiltersNothing(decode, lines);
      var before, kept := Kept(decode, false, lines, i - 1), Kept(decode, false, lines, i);
      assert IsData(lines[i - 1]) ==> ParseLines(before).data == "";
      forall j | 0 <= j < |kept| && IsData(kept[j]) ensures ParseLines(kept[..j]).data == "" {
        if j < |before| {
          assert kept[..j] == before[..j] && kept[j] == before[j];
        } else {
          assert kept[..j] == before && kept[j] == lines[i - 1];
        }
      }
    }
  }

  lemma {:induction false} KeptAreScannable(decode: Decoder, lines: seq<string>, i: nat, max: nat)
    requires i <= |lines| && Scannable(lines, max)
    ensures Scannable(Kept(decode, false, lines, i), max)
  {
    hide UsageOnly, LfFree;
    if i > 0 {
      KeptAreScannable(decode, lines, i - 1, max);
    }
  }

  lemma KeptPayloads(decode: Decoder, lines: seq<string>)
    requires OneDataLinePerEvent(lines) && decode("").NoObject?
    ensures Payloads(Scan(Kept(decode, false, lines, |lines|), true)) == Unfiltered(decode, Payloads(Scan(lines, true)))
  {
    hide Kept, DataOf, IsData, OneDataLinePerEvent, ParseLines, UsageOnlyPayload;
    FilterCommutes(decode, lines, |lines|);
    assert lines[..|lines|] == lines;
    var all := ParseLines(lines);
    UnfilteredSnoc(decode, all.done, all.data);
    FiltersNothing(decode, lines);
  }

  /** For a stream of events with one data line each and no over-long line, parsing the filtered bytes delivers
      exactly the payloads of the unfiltered stream that are not usage-only, in order, if and only if no data
      line that was kept still ends in CR after its line end was removed. */
  lemma FilteredStreamParses(decode: Decoder, input: string, max: nat)
    requires max >= MAX_LINE && decode("").NoObject?
    requires ScanLines(input, MAX_LINE).complete && OneDataLinePerEvent(ScanLines(input, MAX_LINE).lines)
    ensures var scan := ScanLines(input, MAX_LINE);
            var kept := Kept(decode, false, scan.lines, |scan.lines|);
            Payloads(ScanLines(Render(kept), max)) == Unfiltered(decode, Payloads(scan)) <==> DataLinesClean(kept)
  {
    hide ScanLines, Kept, Render, DataOf, IsData, OneDataLinePerEvent, ParseLines, UsageOnlyPayload, LfFree,
         WithoutCr, DataLinesClean, DataLength, TotalLength, Unfiltered;
    var scan := ScanLines(input, MAX_LINE);
    var lines := scan.lines;
    var kept := Kept(decode, false, lines, |lines|);
    ScannedLinesLfFree(input, MAX_LINE);
    KeptAreScannable(decode, lines, |lines|, max);
    RenderThenRescan(kept, max);
    KeptPayloads(decode, lines);
    assert kept[..|kept|] == kept;
    PayloadsHaveDataLength(kept);
    PayloadsHaveDataLength(WithoutCr(kept));
    CrShortensData(kept);
    if DataLinesClean(kept) {
      KeptStartEvents(decode, lines, |lines|);
      CleanLinesParseAlike(kept, |kept|);
    }
  }

  /** A stream whose payload loses a character on its way through the filter. */
  lemma TrailingCrIsLost(decode: Decoder)
    requires decode("").NoObject? && !UsageOnlyPayload(decode, "x\r")
    ensures var scan := ScanLines("data: x\r\r\n\n", MAX_LINE);
            && scan.complete && OneDataLinePerEvent(scan.lines) && Payloads(scan) == ["x\r"]
            && Payloads(ScanLines(Render(Kept(decode, false, scan.lines, |scan.lines|)), MAX_LINE))
               != Unfiltered(decode, Payloads(scan))
  {
    hide ScanLines, ParseLines, Render, UsageOnlyPayload, Unfiltered, Payloads, OneDataLinePerEvent;
    var input, line := "data: x\r\r\n\n", FIELD + "x\r";
    assert input == line + "\r" + "\n" + "\n" && line == "data: x\r";
    ScanTwoLines(line);
    var lines := [line, ""];
    FieldData("x\r");
    TwoLinesParse(line, "x\r");
    assert Kept(decode, false, lines, 0) == [] && Kept(decode, false, lines, 1) == [line];
    assert Kept(decode, false, lines, 2)[0] == line && IsData(line) && !NoTrailingCr(line);
    FilteredStreamParses(decode, input, MAX_LINE);
  }

  lemma ScanTwoLines(line: string)
    requires LfFree(line) && |line| < 100
    ensures ScanLines(line + "\r" + "\n" + "\n", MAX_LINE) == Scan([line, ""], true)
  {
    hide ScanLines;
    var s := line + "\r" + "\n" + "\n";
    LfAtAppend(line + "\r", "\n");
    ScanFirst(s, MAX_LINE);
    assert s[..|line| + 1] == line + "\r" && s[|line| + 2..] == "\n" && DropCr(line + "\r") == line;
    ScanTerminated("", MAX_LINE);
    assert "" + "\n" == "\n" && [line] + [""] == [line, ""];
  }

  lemma TwoLinesParse(line: string, payload: string)
    requires line != "" && DataOf(line) == payload != ""
    ensures Payloads(Scan([line, ""], true)) == [payload] && OneDataLinePerEvent([line, ""])
  {
    hide DataOf;
    BlankIsNoData();
    assert [line, ""][..1] == [line] && [line][..0] == [] && [line, ""][..0] == [];
    assert ParseLines([line]) == Parse([], payload) && ParseLines([line, ""]) == Parse([payload], "");
  }
}
