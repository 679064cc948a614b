/** Built-in tool calls of a chat completion (openaiapi/chat_runner.go): reassembled from the deltas of a
    stream, or read from a JSON answer. */
module ChatCalls {
  import opened Text
  import opened Usage

  /** The indices of a choice and of a tool call in it. */
  type Key = (int, int)

  datatype ToolDelta = ToolDelta(index: int, id: string, name: string, arguments: string)

  datatype Choice = Choice(index: int, toolCalls: seq<ToolDelta>)

  datatype Chunk = Chunk(usage: Option<Tokens>, choices: seq<Choice>)

  /** A line of the stream: blank, a payload that decodes to a chunk, the end mark, or anything else. */
  datatype Line = Blank | Data(text: string, chunk: Chunk) | Done | Other(text: string)

  datatype Delta = Delta(key: Key, id: string, name: string, arguments: string)

  datatype Builder = Builder(id: string, name: string, arguments: string)

  const NEW := Builder("", "", "")

  datatype Call = Call(id: string, arguments: string)

  /** A built-in call and where it stands. */
  datatype Site = Site(key: Key, call: Call)

  datatype Patch = Patch(status: string, containerId: string, outputs: seq<string>)

  datatype Ran = Ran(site: Site, patch: Patch)

  /** The n-th execution; None is a failure. */
  type Executor = (nat, Call) -> Option<Patch>

  // ---- Reassembly ----

  function Extend(b: Builder, d: Delta): Builder {
    Builder(if Trim(d.id) != "" then Trim(d.id) else b.id,
            if Trim(d.name) != "" then Trim(d.name) else b.name,
            b.arguments + d.arguments)
  }

  function AddDelta(builders: map<Key, Builder>, d: Delta): map<Key, Builder> {
    builders[d.key := Extend(if d.key in builders then builders[d.key] else NEW, d)]
  }

  function Built(deltas: seq<Delta>): map<Key, Builder> {
    if deltas == [] then map[] else AddDelta(Built(deltas[..|deltas| - 1]), deltas[|deltas| - 1])
  }

  function DeltaOf(choice: int, t: ToolDelta): Delta {
    Delta((choice, t.index), t.id, t.name, t.arguments)
  }

  function OfChoice(c: Choice, j: nat): seq<Delta>
    requires j <= |c.toolCalls|
  {
    if j == 0 then [] else OfChoice(c, j - 1) + [DeltaOf(c.index, c.toolCalls[j - 1])]
  }

  function OfChoices(choices: seq<Choice>, i: nat): seq<Delta>
    requires i <= |choices|
  {
    if i == 0 then []
    else OfChoices(choices, i - 1) + OfChoice(choices[i - 1], |choices[i - 1].toolCalls|)
  }

  lemma BuiltSnoc(deltas: seq<Delta>, d: Delta)
    ensures Built(deltas + [d]) == AddDelta(Built(deltas), d)
  {
    assert (deltas + [d])[..|deltas|] == deltas;
  }

  // The reference: each index on its own.

  /** The deltas of one index, in order. */
  function Own(deltas: seq<Delta>, k: Key): seq<Delta> {
    if deltas == [] then []
    else
      Own(deltas[..|deltas| - 1], k)
      + (if deltas[|deltas| - 1].key == k then [deltas[|deltas| - 1]] else [])
  }

  function LastId(deltas: seq<Delta>): string {
    if deltas == [] then ""
    else if Trim(deltas[|deltas| - 1].id) != "" then Trim(deltas[|deltas| - 1].id)
    else LastId(deltas[..|deltas| - 1])
  }

  function LastName(deltas: seq<Delta>): string {
    if deltas == [] then ""
    else if Trim(deltas[|deltas| - 1].name) != "" then Trim(deltas[|deltas| - 1].name)
    else LastName(deltas[..|deltas| - 1])
  }

  function Joined(deltas: seq<Delta>): string {
    if deltas == [] then "" else Joined(deltas[..|deltas| - 1]) + deltas[|deltas| - 1].arguments
  }

  /** However the deltas are interleaved, the call at an index is made of that index's own deltas: the last id
      and name that are not blank, and all argument fragments in order. */
  lemma {:induction false} BuiltFromOwnDeltas(deltas: seq<Delta>, k: Key)
    ensures k in Built(deltas) <==> Own(deltas, k) != []
    ensures k in Built(deltas) ==>
              Built(deltas)[k] == Builder(LastId(Own(deltas, k)), LastName(Own(deltas, k)), Joined(Own(deltas, k)))
  {
    hide Trim;
    if deltas != [] {
      var before, d := deltas[..|deltas| - 1], deltas[|deltas| - 1];
      BuiltFromOwnDeltas(before, k);
      var own := Own(before, k);
      assert own + [] == own;
      if d.key == k {
        assert (own + [d])[..|own|] == own;
      }
    }
  }

  /** Streams whose indices each receive the same deltas, in whatever interleaving, build the same calls. */
  lemma InterleavingIrrelevant(deltas: seq<Delta>, other: seq<Delta>)
    requires forall k :: Own(deltas, k) == Own(other, k)
    ensures Built(deltas) == Built(other)
  {
    hide Built, LastId, LastName, Joined;
    forall k ensures k in Built(deltas) <==> k in Built(other) {
      BuiltFromOwnDeltas(deltas, k);
      BuiltFromOwnDeltas(other, k);
    }
    forall k | k in Built(deltas) ensures Built(deltas)[k] == Built(other)[k] {
      BuiltFromOwnDeltas(deltas, k);
      BuiltFromOwnDeltas(other, k);
    }
  }

  // ---- The stream ----

  predicate Hides(wanted: bool, c: Chunk) {
    c.usage.Some? && c.choices == [] && !wanted
  }

  /** The lines before the end mark. */
  function BeforeDone(lines: seq<Line>): (n: nat)
    ensures n <= |lines| && (n < |lines| ==> lines[n].Done?)
    ensures forall i :: 0 <= i < n ==> !lines[i].Done?
  {
    if lines == [] then 0
    else
      var n := BeforeDone(lines[..|lines| - 1]);
      if n == |lines| - 1 && !lines[n].Done? then n + 1 else n
  }

  function DeltasUpTo(lines: seq<Line>, i: nat): seq<Delta>
    requires i <= |lines|
  {
    if i == 0 then []
    else
      DeltasUpTo(lines, i - 1)
      + (if lines[i - 1].Data? then OfChoices(lines[i - 1].chunk.choices, |lines[i - 1].chunk.choices|) else [])
  }

  /** All deltas of the stream, in order. */
  function StreamDeltas(lines: seq<Line>): seq<Delta> {
    DeltasUpTo(lines, BeforeDone(lines))
  }

  function UsageUpTo(lines: seq<Line>, i: nat): Option<Tokens>
    requires i <= |lines|
  {
    if i == 0 then None
    else if lines[i - 1].Data? && lines[i - 1].chunk.usage.Some? then Some(Normalize(lines[i - 1].chunk.usage.value))
    else UsageUpTo(lines, i - 1)
  }

  /** Whether the next blank line is to be dropped. */
  predicate Suppressing(wanted: bool, lines: seq<Line>, i: nat)
    requires i <= |lines|
  {
    i > 0 && match lines[i - 1]
             case Blank => false
             case Data(_, c) => Hides(wanted, c) || Suppressing(wanted, lines, i - 1)
             case Done => Suppressing(wanted, lines, i - 1)
             case Other(_) => Suppressing(wanted, lines, i - 1)
  }

  function TextOf(line: Line): string
    requires !line.Done?
  {
    if line.Blank? then "" else line.text
  }

  function Forwarded(wanted: bool, lines: seq<Line>, i: nat): seq<string>
    requires i <= BeforeDone(lines)
  {
    if i == 0 then []
    else
      var line := lines[i - 1];
      Forwarded(wanted, lines, i - 1)
      + (if (line.Blank? && Suppressing(wanted, lines, i - 1)) || (line.Data? && Hides(wanted, line.chunk))
         then [] else [TextOf(line)])
  }

  /** A client that asked for usage gets every line up to the end mark. */
  lemma {:induction false} NothingDropped(lines: seq<Line>, i: nat)
    requires i <= BeforeDone(lines)
    ensures |Forwarded(true, lines, i)| == i && !Suppressing(true, lines, i)
    ensures forall j :: 0 <= j < i ==> Forwarded(true, lines, i)[j] == TextOf(lines[j])
  {
    if i > 0 {
      NothingDropped(lines, i - 1);
    }
  }

  // What the scan keeps, line by line.

  predicate UsageOnly(line: Line) {
    line.Data? && line.chunk.usage.Some? && line.chunk.choices == []
  }

  /** A client that did not ask for usage gets neither a line that reports usage and nothing else nor the first
      blank line behind it. */
  ghost predicate Omitted(wanted: bool, lines: seq<Line>, i: nat)
    requires i < |lines|
  {
    && !wanted
    && (UsageOnly(lines[i]) || (lines[i].Blank? && Pending(lines, i)))
  }

  /** A usage-only line before line i with no blank line since. */
  ghost predicate Pending(lines: seq<Line>, i: nat)
    requires i <= |lines|
  {
    exists h :: 0 <= h < i && UsageOnly(lines[h]) && forall m :: h < m < i ==> !lines[m].Blank?
  }

  lemma {:induction false} SuppressingExactly(wanted: bool, lines: seq<Line>, i: nat)
    requires i <= |lines|
    ensures Suppressing(wanted, lines, i) <==> !wanted && Pending(lines, i)
  {
    if i > 0 {
      SuppressingExactly(wanted, lines, i - 1);
      if UsageOnly(lines[i - 1]) {
        assert Pending(lines, i);
      } else if !lines[i - 1].Blank? && Pending(lines, i - 1) {
        var h :| 0 <= h < i - 1 && UsageOnly(lines[h]) && forall m :: h < m < i - 1 ==> !lines[m].Blank?;
        assert forall m :: h < m < i ==> !lines[m].Blank?;
        assert Pending(lines, i);
      }
    }
  }

  /** The scan forwards, in order and unchanged, exactly the lines before the end mark that are not omitted. */
  lemma {:induction false} ForwardedExactly(wanted: bool, lines: seq<Line>, i: nat) returns (kept: seq<nat>)
    requires i <= BeforeDone(lines)
    ensures |kept| == |Forwarded(wanted, lines, i)|
    ensures forall p, q :: 0 <= p < q < |kept| ==> kept[p] < kept[q]
    ensures forall p :: 0 <= p < |kept| ==> kept[p] < i
    ensures forall h :: 0 <= h < i ==> (h in kept <==> !Omitted(wanted, lines, h))
    ensures forall p :: 0 <= p < |kept| ==>
              Forwarded(wanted, lines, i)[p] == if lines[kept[p]].Blank? then "" else lines[kept[p]].text
  {
    hide Pending, Suppressing, BeforeDone;
    if i == 0 {
      kept := [];
    } else {
      kept := ForwardedExactly(wanted, lines, i - 1);
      SuppressingExactly(wanted, lines, i - 1);
      if !Omitted(wanted, lines, i - 1) {
        kept := kept + [i - 1];
      }
    }
  }

  predicate Reports(line: Line) {
    line.Data? && line.chunk.usage.Some?
  }

  /** The usage of the stream is that of its last line that reports any, if one does. */
  lemma {:induction false} UsageExactly(lines: seq<Line>, i: nat) returns (last: int)
    requires i <= |lines|
    ensures -1 <= last < i && (forall m :: last < m < i ==> !Reports(lines[m]))
    ensures UsageUpTo(lines, i).None? <==> last == -1
    ensures last >= 0 ==>
              && Reports(lines[last])
              && var reported, usage := lines[last].chunk.usage.value, UsageUpTo(lines, i).value;
                 && usage.prompt == PromptOf(reported) && usage.completion == CompletionOf(reported)
                 && usage.total == reported.total
  {
    hide Normalize, PromptOf, CompletionOf;
    if i == 0 {
      last := -1;
    } else if Reports(lines[i - 1]) {
      last := i - 1;
      NormalizedExactly(lines[i - 1].chunk.usage.value);
    } else {
      last := UsageExactly(lines, i - 1);
    }
  }

  // What the scan collects, delta by delta.

  /** Where a delta stands in the stream. */
  datatype Place = Place(line: nat, choice: nat, call: nat)

  predicate Earlier(p: Place, q: Place) {
    || p.line < q.line
    || (p.line == q.line && (p.choice < q.choice || (p.choice == q.choice && p.call < q.call)))
  }

  predicate IsPlace(lines: seq<Line>, p: Place) {
    && p.line < |lines| && lines[p.line].Data?
    && p.choice < |lines[p.line].chunk.choices| && p.call < |lines[p.line].chunk.choices[p.choice].toolCalls|
  }

  /** The delta carries the call's own index, id, name and fragment, and the index of its choice. */
  predicate StandsAt(lines: seq<Line>, p: Place, d: Delta) {
    && IsPlace(lines, p)
    && var choice := lines[p.line].chunk.choices[p.choice];
       var t := choice.toolCalls[p.call];
       && d.key.0 == choice.index && d.key.1 == t.index
       && d.id == t.id && d.name == t.name && d.arguments == t.arguments
  }

  predicate Lists(lines: seq<Line>, at: seq<Place>, deltas: seq<Delta>) {
    && |at| == |deltas|
    && (forall n :: 0 <= n < |at| ==> StandsAt(lines, at[n], deltas[n]))
    && (forall m, n :: 0 <= m < n < |at| ==> Earlier(at[m], at[n]))
  }

  lemma ListsAppend(lines: seq<Line>, at: seq<Place>, deltas: seq<Delta>, at': seq<Place>, deltas': seq<Delta>)
    requires Lists(lines, at, deltas) && Lists(lines, at', deltas')
    requires forall p, q :: p in at && q in at' ==> Earlier(p, q)
    ensures Lists(lines, at + at', deltas + deltas')
  {
    hide StandsAt, Earlier;
    var all, both := at + at', deltas + deltas';
    forall m, n | 0 <= m < n < |all| ensures Earlier(all[m], all[n]) {
      assert all[m] == if m < |at| then at[m] else at'[m - |at|];
      assert all[n] == if n < |at| then at[n] else at'[n - |at|];
    }
  }

  lemma {:induction false} ChoicePlaces(lines: seq<Line>, i: nat, c: nat, j: nat) returns (at: seq<Place>)
    requires i < |lines| && lines[i].Data? && c < |lines[i].chunk.choices|
    requires j <= |lines[i].chunk.choices[c].toolCalls|
    ensures Lists(lines, at, OfChoice(lines[i].chunk.choices[c], j))
    ensures forall p :: p in at <==> p.line == i && p.choice == c && p.call < j
  {
    hide Lists;
    at := [];
    if j == 0 {
      NothingListed(lines);
    } else {
      var choice := lines[i].chunk.choices[c];
      var before := ChoicePlaces(lines, i, c, j - 1);
      var here := Place(i, c, j - 1);
      OneListed(lines, here, DeltaOf(choice.index, choice.toolCalls[j - 1]));
      ListsAppend(lines, before, OfChoice(choice, j - 1), [here], [DeltaOf(choice.index, choice.toolCalls[j - 1])]);
      at := before + [here];
    }
  }

  lemma NothingListed(lines: seq<Line>)
    ensures Lists(lines, [], [])
  {
  }

  lemma OneListed(lines: seq<Line>, p: Place, d: Delta)
    requires StandsAt(lines, p, d)
    ensures Lists(lines, [p], [d])
  {
  }

  lemma {:induction false} ChoicesPlaces(lines: seq<Line>, i: nat, c: nat) returns (at: seq<Place>)
    requires i < |lines| && lines[i].Data? && c <= |lines[i].chunk.choices|
    ensures Lists(lines, at, OfChoices(lines[i].chunk.choices, c))
    ensures forall p :: p in at <==> IsPlace(lines, p) && p.line == i && p.choice < c
  {
    hide Lists, OfChoice;
    at := [];
    if c == 0 {
      NothingListed(lines);
    } else {
      var choices := lines[i].chunk.choices;
      var before := ChoicesPlaces(lines, i, c - 1);
      var here := ChoicePlaces(lines, i, c - 1, |choices[c - 1].toolCalls|);
      ListsAppend(lines, before, OfChoices(choices, c - 1), here, OfChoice(choices[c - 1], |choices[c - 1].toolCalls|));
      at := before + here;
    }
  }

  lemma {:induction false} LinesPlaces(lines: seq<Line>, i: nat) returns (at: seq<Place>)
    requires i <= |lines|
    ensures Lists(lines, at, DeltasUpTo(lines, i))
    ensures forall p :: p in at <==> IsPlace(lines, p) && p.line < i
  {
    hide Lists, OfChoices;
    at := [];
    if i == 0 {
      NothingListed(lines);
    } else {
      var before := LinesPlaces(lines, i - 1);
      var deltas := DeltasUpTo(lines, i - 1);
      if lines[i - 1].Data? {
        var choices := lines[i - 1].chunk.choices;
        var here := ChoicesPlaces(lines, i - 1, |choices|);
        ListsAppend(lines, before, deltas, here, OfChoices(choices, |choices|));
        at := before + here;
      } else {
        assert deltas + [] == deltas;
        at := before;
      }
    }
  }

  /** The deltas of a stream are exactly those that stand in its chunks before the end mark, in document order. */
  lemma CollectedExactly(lines: seq<Line>) returns (at: seq<Place>)
    ensures Lists(lines, at, StreamDeltas(lines))
    ensures forall p :: p in at <==> IsPlace(lines, p) && forall i :: 0 <= i <= p.line ==> !lines[i].Done?
  {
    hide Lists, DeltasUpTo;
    at := LinesPlaces(lines, BeforeDone(lines));
  }

  class ChatStream {
    const builtin: string
    const wanted: bool
    var builders: map<Key, Builder>
    var finalUsage: Option<Tokens>
    var output: seq<string>
    var ran: seq<Ran>

    constructor (builtin: string, wanted: bool)
      ensures this.builtin == builtin && this.wanted == wanted
      ensures builders == map[] && finalUsage == None && output == [] && ran == []
    {
      this.builtin, this.wanted := builtin, wanted;
      builders, finalUsage, output, ran := map[], None, [], [];
    }

    method CollectChatToolCalls(choices: seq<Choice>, ghost before: seq<Delta>)
      requires builders == Built(before)
      modifies this`builders
      ensures builders == Built(before + OfChoices(choices, |choices|))
    {
      hide Built, Trim;
      assert before + [] == before;
      for i := 0 to |choices|
        invariant builders == Built(before + OfChoices(choices, i))
      {
        var choice := choices[i];
        ghost var sofar := before + OfChoices(choices, i);
        assert sofar + [] == sofar;
        for j := 0 to |choice.toolCalls|
          invariant builders == Built(sofar + OfChoice(choice, j))
        {
          var t := choice.toolCalls[j];
          var key := (choice.index, t.index);
          ghost var deltas, d := sofar + OfChoice(choice, j), DeltaOf(choice.index, t);
          BuiltSnoc(deltas, d);
          assert deltas + [d] == sofar + (OfChoice(choice, j) + [d]);
          var builder := if key in builders then builders[key] else NEW;
          var id := Trim(t.id);
          if id != "" {
            builder := builder.(id := id);
          }
          var name := Trim(t.name);
          if name != "" {
            builder := builder.(name := name);
          }
          builder := builder.(arguments := builder.arguments + t.arguments);
          builders := builders[key := builder];
        }
        assert sofar + OfChoice(choice, |choice.toolCalls|)
            == before + (OfChoices(choices, i) + OfChoice(choice, |choice.toolCalls|));
      }
    }

    /** The scan loop: forwards the lines and collects the calls and the usage. */
    method Scan(lines: seq<Line>)
      requires builders == map[] && finalUsage == None && output == []
      modifies this`builders, this`finalUsage, this`output
      ensures builders == Built(StreamDeltas(lines))
      ensures finalUsage == UsageUpTo(lines, BeforeDone(lines))
      ensures output == Forwarded(wanted, lines, BeforeDone(lines))
    {
      hide Built, OfChoices, Normalize;
      var suppressNextBlank := false;
      var n, i := BeforeDone(lines), 0;
      assert Built([]) == map[] by {
        NothingBuilt();
      }
      while i < |lines|
        invariant i <= n
        invariant builders == Built(DeltasUpTo(lines, i)) && finalUsage == UsageUpTo(lines, i)
        invariant output == Forwarded(wanted, lines, i)
        invariant suppressNextBlank == Suppressing(wanted, lines, i)
      {
        var line := lines[i];
        ghost var deltas, forwarded := DeltasUpTo(lines, i), Forwarded(wanted, lines, i);
        assert deltas + [] == deltas && forwarded + [] == forwarded;
        if line.Done? {
          break;
        }
        i := i + 1;
        if line.Blank? {
          if suppressNextBlank {
            suppressNextBlank := false;
          } else {
            output := output + [""];
          }
          continue;
        }
        if line.Other? {
          output := output + [line.text];
          continue;
        }
        if line.chunk.usage.Some? {
          finalUsage := Some(Normalize(line.chunk.usage.value));
        }
        if line.chunk.usage.Some? && |line.chunk.choices| == 0 && !wanted {
          NoChoicesNoDeltas(line.chunk.choices);
          suppressNextBlank := true;
          continue;
        }
        CollectChatToolCalls(line.chunk.choices, deltas);
        output := output + [line.text];
      }
    }

    /** Executes the built-in calls, in the arbitrary order of a map, until one fails. */
    method ExecuteCalls(tool: Executor) returns (ok: bool)
      requires ran == []
      modifies this`ran
      ensures SitesOf(ran) <= StreamSites(builtin, builders) && |SitesOf(ran)| == |ran|
      ensures ok ==> SitesOf(ran) == StreamSites(builtin, builders)
      ensures !ok ==> exists site ::
        site in StreamSites(builtin, builders) - SitesOf(ran) && tool(|ran|, site.call).None?
      ensures forall n :: 0 <= n < |ran| ==> Some(ran[n].patch) == tool(n, ran[n].site.call)
    {
      hide CallOf, SitesOf, SitesOutside, StreamSites;
      var pending := builders.Keys;
      SitesOutsideAll(builtin, builders);
      while pending != {}
        invariant pending <= builders.Keys
        invariant SitesOf(ran) == SitesOutside(builtin, builders, pending)
        invariant |SitesOf(ran)| == |ran|
        invariant forall n :: 0 <= n < |ran| ==> Some(ran[n].patch) == tool(n, ran[n].site.call)
        decreases |pending|
      {
        var key :| key in pending;
        SitesOutsideStep(builtin, builders, pending, key);
        pending := pending - {key};
        var builder := builders[key];
        if builder.name != builtin {
          continue;
        }
        var site := Site(key, CallOf(builder));
        var result := tool(|ran|, site.call);
        if result.None? {
          assert site in StreamSites(builtin, builders) - SitesOf(ran);
          return false;
        }
        SitesSnoc(ran, Ran(site, result.value));
        ran := ran + [Ran(site, result.value)];
      }
      return true;
    }
  }

  lemma NothingBuilt()
    ensures Built([]) == map[]
  {
  }

  lemma NoChoicesNoDeltas(choices: seq<Choice>)
    requires choices == []
    ensures OfChoices(choices, |choices|) == []
  {
  }

  /** What the tool is called with: both strings trimmed. */
  function CallOf(b: Builder): Call {
    Call(Trim(b.id), Trim(b.arguments))
  }

  function StreamSites(builtin: string, builders: map<Key, Builder>): set<Site> {
    set k | k in builders && builders[k].name == builtin :: Site(k, CallOf(builders[k]))
  }

  function SitesOf(ran: seq<Ran>): set<Site> {
    set r | r in ran :: r.site
  }

  /** Those whose index is not pending. */
  function SitesOutside(builtin: string, builders: map<Key, Builder>, pending: set<Key>): set<Site> {
    set k | k in builders && k !in pending && builders[k].name == builtin :: Site(k, CallOf(builders[k]))
  }

  lemma SitesOutsideAll(builtin: string, builders: map<Key, Builder>)
    ensures SitesOutside(builtin, builders, builders.Keys) == {} == SitesOf([])
    ensures SitesOutside(builtin, builders, {}) == StreamSites(builtin, builders)
  {
  }

  lemma SitesOutsideStep(builtin: string, builders: map<Key, Builder>, pending: set<Key>, k: Key)
    requires k in pending && k in builders
    ensures SitesOutside(builtin, builders, pending - {k})
         == SitesOutside(builtin, builders, pending)
            + if builders[k].name == builtin then {Site(k, CallOf(builders[k]))} else {}
    ensures Site(k, CallOf(builders[k])) !in SitesOutside(builtin, builders, pending)
    ensures SitesOutside(builtin, builders, pending) <= StreamSites(builtin, builders)
    ensures builders[k].name == builtin ==> Site(k, CallOf(builders[k])) in StreamSites(builtin, builders)
  {
    hide CallOf;
  }

  lemma SitesSnoc(ran: seq<Ran>, r: Ran)
    ensures SitesOf(ran + [r]) == SitesOf(ran) + {r.site}
  {
    assert r in ran + [r];
    forall site | site in SitesOf(ran) + {r.site} ensures site in SitesOf(ran + [r]) {
      if site in SitesOf(ran) {
        var q :| q in ran && q.site == site;
        assert q in ran + [r];
      }
    }
  }

  // ---- The JSON answer ----

  datatype JsonCall = JsonCall(id: string, name: string, arguments: string, isFunction: bool)

  datatype JsonChoice = JsonChoice(index: int, calls: seq<JsonCall>)

  function JsonCallOf(c: JsonCall): Call {
    Call(Trim(c.id), Trim(c.arguments))
  }

  /** Only calls typed as function calls make the handler look for built-in ones. */
  predicate HasToolCalls(builtin: string, completion: seq<JsonChoice>) {
    exists i, j :: 0 <= i < |completion| && 0 <= j < |completion[i].calls|
      && completion[i].calls[j].isFunction && Trim(completion[i].calls[j].name) == builtin
  }

  function SitesInChoice(builtin: string, c: JsonChoice, j: nat): seq<Site>
    requires j <= |c.calls|
  {
    if j == 0 then []
    else
      SitesInChoice(builtin, c, j - 1)
      + (if Trim(c.calls[j - 1].name) == builtin then [Site((c.index, j - 1), JsonCallOf(c.calls[j - 1]))] else [])
  }

  /** The built-in calls of the first i choices, in order. */
  function SitesUpTo(builtin: string, completion: seq<JsonChoice>, i: nat): seq<Site>
    requires i <= |completion|
  {
    if i == 0 then []
    else SitesUpTo(builtin, completion, i - 1) + SitesInChoice(builtin, completion[i - 1], |completion[i - 1].calls|)
  }

  function JsonSites(builtin: string, completion: seq<JsonChoice>): seq<Site> {
    if HasToolCalls(builtin, completion) then SitesUpTo(builtin, completion, |completion|) else []
  }

  /** The given calls were run in order, the n-th execution giving the n-th result. */
  ghost predicate InOrder(tool: Executor, sites: seq<Site>, ran: seq<Ran>) {
    && |ran| == |sites|
    && forall n :: 0 <= n < |ran| ==> ran[n].site == sites[n] && Some(ran[n].patch) == tool(n, sites[n].call)
  }

  lemma InOrderSnoc(tool: Executor, sites: seq<Site>, ran: seq<Ran>, site: Site, patch: Patch)
    requires InOrder(tool, sites, ran) && tool(|ran|, site.call) == Some(patch)
    ensures InOrder(tool, sites + [site], ran + [Ran(site, patch)])
  {
  }

  /** The built-in calls before call j of choice i. */
  function SitesBefore(builtin: string, completion: seq<JsonChoice>, i: nat, j: nat): seq<Site>
    requires i < |completion| && j <= |completion[i].calls|
  {
    SitesUpTo(builtin, completion, i) + SitesInChoice(builtin, completion[i], j)
  }

  lemma SitesBeforeStart(builtin: string, completion: seq<JsonChoice>, i: nat)
    requires i < |completion|
    ensures SitesBefore(builtin, completion, i, 0) == SitesUpTo(builtin, completion, i)
    ensures SitesBefore(builtin, completion, i, |completion[i].calls|) == SitesUpTo(builtin, completion, i + 1)
  {
    hide Trim, JsonCallOf;
    var sofar := SitesUpTo(builtin, completion, i);
    assert sofar + [] == sofar;
  }

  lemma SitesBeforeStep(builtin: string, completion: seq<JsonChoice>, i: nat, j: nat)
    requires i < |completion| && j < |completion[i].calls|
    ensures var c := completion[i].calls[j];
            SitesBefore(builtin, completion, i, j + 1) == SitesBefore(builtin, completion, i, j)
              + if Trim(c.name) == builtin then [Site((completion[i].index, j), JsonCallOf(c))] else []
  {
    hide Trim, JsonCallOf;
    var sofar, here := SitesUpTo(builtin, completion, i), SitesInChoice(builtin, completion[i], j);
    var c := completion[i].calls[j];
    assert here + [] == here;
    if Trim(c.name) == builtin {
      var site := Site((completion[i].index, j), JsonCallOf(c));
      assert sofar + (here + [site]) == sofar + here + [site];
    }
  }

  /** Executes the built-in calls of a JSON answer in order, until one fails. */
  method HandleChatJson(tool: Executor, builtin: string, completion: seq<JsonChoice>) returns (ok: bool, ran: seq<Ran>)
    ensures ok ==> InOrder(tool, JsonSites(builtin, completion), ran)
    ensures !ok ==> exists sites, site ::
      (sites + [site] <= JsonSites(builtin, completion) && InOrder(tool, sites, ran) && tool(|ran|, site.call).None?)
  {
    hide Trim, JsonCallOf, SitesBefore, SitesUpTo, InOrder, HasToolCalls;
    var found := ChatCompletionHasToolCalls(builtin, completion);
    ran := [];
    NothingRan(tool, builtin, completion);
    if !found {
      return true, ran;
    }
    for i := 0 to |completion|
      invariant InOrder(tool, SitesUpTo(builtin, completion, i), ran)
    {
      SitesBeforeStart(builtin, completion, i);
      for j := 0 to |completion[i].calls|
        invariant InOrder(tool, SitesBefore(builtin, completion, i, j), ran)
      {
        var call := completion[i].calls[j];
        ghost var sites := SitesBefore(builtin, completion, i, j);
        assert sites + [] == sites;
        SitesBeforeStep(builtin, completion, i, j);
        if Trim(call.name) != builtin {
          continue;
        }
        var site := Site((completion[i].index, j), JsonCallOf(call));
        var result := tool(|ran|, site.call);
        if result.None? {
          SitesArePrefix(builtin, completion, i, j + 1);
          assert sites + [site] <= JsonSites(builtin, completion);
          return false, ran;
        }
        InOrderSnoc(tool, sites, ran, site, result.value);
        ran := ran + [Ran(site, result.value)];
      }
    }
    return true, ran;
  }

  lemma NothingRan(tool: Executor, builtin: string, completion: seq<JsonChoice>)
    ensures InOrder(tool, [], []) && SitesUpTo(builtin, completion, 0) == []
  {
  }

  method ChatCompletionHasToolCalls(builtin: string, completion: seq<JsonChoice>) returns (found: bool)
    ensures found <==> HasToolCalls(builtin, completion)
  {
    hide Trim;
    for i := 0 to |completion|
      invariant forall a, j :: 0 <= a < i && 0 <= j < |completion[a].calls| ==>
                  !(completion[a].calls[j].isFunction && Trim(completion[a].calls[j].name) == builtin)
    {
      for j := 0 to |completion[i].calls|
        invariant forall b :: 0 <= b < j ==>
                    !(completion[i].calls[b].isFunction && Trim(completion[i].calls[b].name) == builtin)
      {
        if completion[i].calls[j].isFunction && Trim(completion[i].calls[j].name) == builtin {
          return true;
        }
      }
    }
    return false;
  }

  lemma {:induction false} ChoiceIsPrefix(builtin: string, c: JsonChoice, j: nat, n: nat)
    requires j <= n <= |c.calls|
    ensures SitesInChoice(builtin, c, j) <= SitesInChoice(builtin, c, n)
  {
    hide Trim, JsonCallOf;
    if j < n {
      ChoiceIsPrefix(builtin, c, j, n - 1);
    }
  }

  lemma {:induction false} UpToIsPrefix(builtin: string, completion: seq<JsonChoice>, i: nat, n: nat)
    requires i <= n <= |completion|
    ensures SitesUpTo(builtin, completion, i) <= SitesUpTo(builtin, completion, n)
  {
    hide SitesInChoice;
    if i < n {
      UpToIsPrefix(builtin, completion, i, n - 1);
    }
  }

  lemma SitesArePrefix(builtin: string, completion: seq<JsonChoice>, i: nat, j: nat)
    requires i < |completion| && j <= |completion[i].calls|
    ensures SitesBefore(builtin, completion, i, j) <= SitesUpTo(builtin, completion, |completion|)
  {
    hide SitesInChoice;
    ChoiceIsPrefix(builtin, completion[i], j, |completion[i].calls|);
    UpToIsPrefix(builtin, completion, i + 1, |completion|);
  }

  /** Where a call stands in an answer. */
  datatype Spot = Spot(choice: nat, call: nat)

  predicate IsCall(builtin: string, completion: seq<JsonChoice>, p: Spot) {
    && p.choice < |completion| && p.call < |completion[p.choice].calls|
    && Trim(completion[p.choice].calls[p.call].name) == builtin
  }

  /** The site carries the index of the choice, the position of the call in it, and the call's strings, trimmed. */
  predicate SiteStandsAt(builtin: string, completion: seq<JsonChoice>, p: Spot, site: Site) {
    && IsCall(builtin, completion, p)
    && site.key == (completion[p.choice].index, p.call)
    && site.call.id == Trim(completion[p.choice].calls[p.call].id)
    && site.call.arguments == Trim(completion[p.choice].calls[p.call].arguments)
  }

  predicate SpotEarlier(p: Spot, q: Spot) {
    p.choice < q.choice || (p.choice == q.choice && p.call < q.call)
  }

  predicate ListsSites(builtin: string, completion: seq<JsonChoice>, at: seq<Spot>, sites: seq<Site>) {
    && |at| == |sites|
    && (forall n :: 0 <= n < |at| ==> SiteStandsAt(builtin, completion, at[n], sites[n]))
    && (forall m, n :: 0 <= m < n < |at| ==> SpotEarlier(at[m], at[n]))
  }

  lemma ListsSitesAppend(builtin: string, completion: seq<JsonChoice>, at: seq<Spot>, sites: seq<Site>,
                         at': seq<Spot>, sites': seq<Site>)
    requires ListsSites(builtin, completion, at, sites) && ListsSites(builtin, completion, at', sites')
    requires forall p, q :: p in at && q in at' ==> SpotEarlier(p, q)
    ensures ListsSites(builtin, completion, at + at', sites + sites')
  {
    hide SiteStandsAt, SpotEarlier;
    var all, both := at + at', sites + sites';
    forall m, n | 0 <= m < n < |all| ensures SpotEarlier(all[m], all[n]) {
      assert all[m] == if m < |at| then at[m] else at'[m - |at|];
      assert all[n] == if n < |at| then at[n] else at'[n - |at|];
    }
  }

  lemma NoSites(builtin: string, completion: seq<JsonChoice>)
    ensures ListsSites(builtin, completion, [], [])
  {
  }

  lemma OneSite(builtin: string, completion: seq<JsonChoice>, p: Spot, site: Site)
    requires SiteStandsAt(builtin, completion, p, site)
    ensures ListsSites(builtin, completion, [p], [site])
  {
  }

  lemma {:induction false} ChoiceSpots(builtin: string, completion: seq<JsonChoice>, i: nat, j: nat)
    returns (at: seq<Spot>)
    requires i < |completion| && j <= |completion[i].calls|
    ensures ListsSites(builtin, completion, at, SitesInChoice(builtin, completion[i], j))
    ensures forall p :: p in at <==> IsCall(builtin, completion, p) && p.choice == i && p.call < j
  {
    hide Trim, ListsSites;
    at := [];
    if j == 0 {
      NoSites(builtin, completion);
    } else {
      at := ChoiceSpots(builtin, completion, i, j - 1);
      var sites, call, here := SitesInChoice(builtin, completion[i], j - 1), completion[i].calls[j - 1], Spot(i, j - 1);
      if Trim(call.name) == builtin {
        var site := Site((completion[i].index, j - 1), JsonCallOf(call));
        OneSite(builtin, completion, here, site);
        ListsSitesAppend(builtin, completion, at, sites, [here], [site]);
        at := at + [here];
      } else {
        assert sites + [] == sites;
      }
    }
  }

  lemma {:induction false} CallSpots(builtin: string, completion: seq<JsonChoice>, i: nat) returns (at: seq<Spot>)
    requires i <= |completion|
    ensures ListsSites(builtin, completion, at, SitesUpTo(builtin, completion, i))
    ensures forall p :: p in at <==> IsCall(builtin, completion, p) && p.choice < i
  {
    hide Trim, ListsSites, SitesInChoice;
    at := [];
    if i == 0 {
      NoSites(builtin, completion);
    } else {
      var before := CallSpots(builtin, completion, i - 1);
      var here := ChoiceSpots(builtin, completion, i - 1, |completion[i - 1].calls|);
      ListsSitesAppend(builtin, completion, before, SitesUpTo(builtin, completion, i - 1),
                       here, SitesInChoice(builtin, completion[i - 1], |completion[i - 1].calls|));
      at := before + here;
    }
  }

  /** The JSON handler calls the tool in document order, exactly with the calls that name it, both strings trimmed;
      with none of them if no such call is typed as a function call. */
  lemma JsonCallsExactly(builtin: string, completion: seq<JsonChoice>) returns (at: seq<Spot>)
    ensures ListsSites(builtin, completion, at, JsonSites(builtin, completion))
    ensures forall p :: p in at <==>
              && IsCall(builtin, completion, p)
              && exists q :: IsCall(builtin, completion, q) && completion[q.choice].calls[q.call].isFunction
  {
    hide SitesUpTo, Trim;
    if HasToolCalls(builtin, completion) {
      at := CallSpots(builtin, completion, |completion|);
      var i, j :| 0 <= i < |completion| && 0 <= j < |completion[i].calls|
                  && completion[i].calls[j].isFunction && Trim(completion[i].calls[j].name) == builtin;
      assert IsCall(builtin, completion, Spot(i, j));
    } else {
      at := [];
    }
  }

  // ---- Both forms execute the same calls ----

  predicate At(completion: seq<JsonChoice>, k: Key, i: nat, j: nat) {
    i < |completion| && j < |completion[i].calls| && k == (completion[i].index, j)
  }

  predicate DistinctIndices(completion: seq<JsonChoice>) {
    forall i, i' :: 0 <= i < i' < |completion| ==> completion[i].index != completion[i'].index
  }

  /** The deltas spell out the completion, in fragments and interleaved in any way: those of each index carry
      the id, the name and, joined, the arguments of the call that stands there, and there are no others. */
  ghost predicate SpellsOut(deltas: seq<Delta>, completion: seq<JsonChoice>) {
    && DistinctIndices(completion)
    && (forall k :: Own(deltas, k) != [] ==> exists i, j :: At(completion, k, i, j))
    && (forall i, j :: 0 <= i < |completion| && 0 <= j < |completion[i].calls| ==>
          CarriesCall(Own(deltas, (completion[i].index, j)), completion[i].calls[j]))
  }

  predicate CarriesCall(own: seq<Delta>, c: JsonCall) {
    own != [] && LastId(own) == Trim(c.id) && LastName(own) == Trim(c.name) && Joined(own) == c.arguments
  }

  /** The assembled calls are the completion's, index by index. */
  ghost predicate Spells(builders: map<Key, Builder>, completion: seq<JsonChoice>) {
    && DistinctIndices(completion)
    && (forall k :: k in builders ==> exists i, j :: At(completion, k, i, j))
    && (forall i, j :: 0 <= i < |completion| && 0 <= j < |completion[i].calls| ==>
          var c, k := completion[i].calls[j], (completion[i].index, j);
          k in builders && builders[k] == Builder(Trim(c.id), Trim(c.name), c.arguments))
  }

  lemma SpellingIsAssembled(deltas: seq<Delta>, completion: seq<JsonChoice>)
    requires SpellsOut(deltas, completion)
    ensures Spells(Built(deltas), completion)
  {
    hide Built, LastId, LastName, Joined, Trim, Own;
    var builders := Built(deltas);
    forall k | k in builders ensures exists i, j :: At(completion, k, i, j) {
      BuiltFromOwnDeltas(deltas, k);
    }
    forall i, j | 0 <= i < |completion| && 0 <= j < |completion[i].calls|
      ensures var c, k := completion[i].calls[j], (completion[i].index, j);
              k in builders && builders[k] == Builder(Trim(c.id), Trim(c.name), c.arguments)
    {
      assert CarriesCall(Own(deltas, (completion[i].index, j)), completion[i].calls[j]);
      BuiltFromOwnDeltas(deltas, (completion[i].index, j));
    }
  }

  lemma {:induction false} InChoiceExactly(builtin: string, c: JsonChoice, n: nat, site: Site)
    requires n <= |c.calls|
    ensures site in SitesInChoice(builtin, c, n) <==>
              exists j :: 0 <= j < n && Trim(c.calls[j].name) == builtin
                          && site == Site((c.index, j), JsonCallOf(c.calls[j]))
  {
    hide Trim, JsonCallOf;
    if n > 0 {
      InChoiceExactly(builtin, c, n - 1, site);
    }
  }

  predicate SiteAt(builtin: string, completion: seq<JsonChoice>, site: Site, i: nat, j: nat) {
    && i < |completion| && j < |completion[i].calls| && Trim(completion[i].calls[j].name) == builtin
    && site == Site((completion[i].index, j), JsonCallOf(completion[i].calls[j]))
  }

  lemma {:induction false} UpToExactly(builtin: string, completion: seq<JsonChoice>, n: nat, site: Site)
    requires n <= |completion|
    ensures site in SitesUpTo(builtin, completion, n) <==>
              exists i, j :: 0 <= i < n && SiteAt(builtin, completion, site, i, j)
  {
    hide Trim, JsonCallOf, SitesInChoice;
    if n > 0 {
      UpToExactly(builtin, completion, n - 1, site);
      InChoiceExactly(builtin, completion[n - 1], |completion[n - 1].calls|, site);
      if site in SitesInChoice(builtin, completion[n - 1], |completion[n - 1].calls|) {
        var j :| 0 <= j < |completion[n - 1].calls| && Trim(completion[n - 1].calls[j].name) == builtin
                 && site == Site((completion[n - 1].index, j), JsonCallOf(completion[n - 1].calls[j]));
        assert SiteAt(builtin, completion, site, n - 1, j);
      }
    }
  }

  lemma SameCallOf(c: JsonCall)
    ensures CallOf(Builder(Trim(c.id), Trim(c.name), c.arguments)) == JsonCallOf(c)
  {
    TrimTwice(c.id);
  }

  lemma CallIsSpelled(builders: map<Key, Builder>, completion: seq<JsonChoice>, i: nat, j: nat)
    requires Spells(builders, completion) && i < |completion| && j < |completion[i].calls|
    ensures var c, k := completion[i].calls[j], (completion[i].index, j);
            k in builders && builders[k].name == Trim(c.name) && CallOf(builders[k]) == JsonCallOf(c)
  {
    hide Trim, CallOf, JsonCallOf;
    SameCallOf(completion[i].calls[j]);
  }

  lemma SomewhereSpelled(builders: map<Key, Builder>, completion: seq<JsonChoice>, k: Key) returns (i: nat, j: nat)
    requires Spells(builders, completion) && k in builders
    ensures At(completion, k, i, j)
  {
    hide Trim;
    i, j :| At(completion, k, i, j);
  }

  lemma StreamSiteExactly(builtin: string, builders: map<Key, Builder>, site: Site)
    ensures site in StreamSites(builtin, builders) <==>
              site.key in builders && builders[site.key].name == builtin && site.call == CallOf(builders[site.key])
  {
    hide CallOf;
  }

  /** The stream handler calls the tool once for each index whose deltas end up naming it, with the last id that
      is not blank and the joined fragments, trimmed. */
  lemma StreamCallsExactly(builtin: string, deltas: seq<Delta>, site: Site)
    ensures site in StreamSites(builtin, Built(deltas)) <==>
              var own := Own(deltas, site.key);
              && own != [] && LastName(own) == builtin
              && site.call.id == Trim(LastId(own)) && site.call.arguments == Trim(Joined(own))
  {
    hide Built, Trim, Own, LastId, LastName, Joined, StreamSites;
    StreamSiteExactly(builtin, Built(deltas), site);
    BuiltFromOwnDeltas(deltas, site.key);
  }

  /** The calls found in a completion are those assembled from a stream that spells it out. */
  lemma SitesAgree(builtin: string, builders: map<Key, Builder>, completion: seq<JsonChoice>, site: Site)
    requires Spells(builders, completion)
    ensures site in SitesUpTo(builtin, completion, |completion|) <==> site in StreamSites(builtin, builders)
  {
    hide Trim, CallOf, JsonCallOf, SitesUpTo, StreamSites, Spells;
    UpToExactly(builtin, completion, |completion|, site);
    StreamSiteExactly(builtin, builders, site);
    if site in StreamSites(builtin, builders) {
      var i, j := SomewhereSpelled(builders, completion, site.key);
      CallIsSpelled(builders, completion, i, j);
      assert SiteAt(builtin, completion, site, i, j);
    } else if i, j :| 0 <= i < |completion| && SiteAt(builtin, completion, site, i, j) {
      CallIsSpelled(builders, completion, i, j);
      assert false;
    }
  }

  predicate DistinctSites(sites: seq<Site>) {
    forall a, b :: 0 <= a < b < |sites| ==> sites[a].key != sites[b].key
  }

  lemma {:induction false} ChoiceSitesDistinct(builtin: string, c: JsonChoice, n: nat)
    requires n <= |c.calls|
    ensures DistinctSites(SitesInChoice(builtin, c, n))
    ensures forall a :: 0 <= a < |SitesInChoice(builtin, c, n)| ==>
              SitesInChoice(builtin, c, n)[a].key.0 == c.index && SitesInChoice(builtin, c, n)[a].key.1 < n
  {
    hide Trim, JsonCallOf;
    if n > 0 {
      ChoiceSitesDistinct(builtin, c, n - 1);
    }
  }

  lemma {:induction false} SitesDistinct(builtin: string, completion: seq<JsonChoice>, n: nat)
    requires n <= |completion|
    requires DistinctIndices(completion)
    ensures DistinctSites(SitesUpTo(builtin, completion, n))
    ensures forall a :: 0 <= a < |SitesUpTo(builtin, completion, n)| ==>
              exists i :: 0 <= i < n && SitesUpTo(builtin, completion, n)[a].key.0 == completion[i].index
  {
    hide SitesInChoice;
    if n > 0 {
      SitesDistinct(builtin, completion, n - 1);
      ChoiceSitesDistinct(builtin, completion[n - 1], |completion[n - 1].calls|);
    }
  }

  predicate NamesTool(builtin: string, completion: seq<JsonChoice>) {
    exists i, j :: 0 <= i < |completion| && 0 <= j < |completion[i].calls|
      && Trim(completion[i].calls[j].name) == builtin
  }

  /** Something is assembled for the tool exactly if the completion names it. */
  lemma NamedIsAssembled(builtin: string, builders: map<Key, Builder>, completion: seq<JsonChoice>)
    requires Spells(builders, completion)
    ensures NamesTool(builtin, completion) <==> StreamSites(builtin, builders) != {}
  {
    hide Trim, StreamSites, Spells, CallOf, JsonCallOf;
    if i, j :| 0 <= i < |completion| && 0 <= j < |completion[i].calls| && Trim(completion[i].calls[j].name) == builtin {
      CallIsSpelled(builders, completion, i, j);
      var k := (completion[i].index, j);
      StreamSiteExactly(builtin, builders, Site(k, CallOf(builders[k])));
    } else if site :| site in StreamSites(builtin, builders) {
      StreamSiteExactly(builtin, builders, site);
      var i, j := SomewhereSpelled(builders, completion, site.key);
      CallIsSpelled(builders, completion, i, j);
      assert false;
    }
  }

  /** When the deltas of a stream spell out a completion, however fragmented and interleaved, both handlers
      execute the same calls, each once, if and only if some call of the tool in the completion is typed as a
      function call or no call names the tool at all. */
  lemma SameCallsExactly(builtin: string, lines: seq<Line>, completion: seq<JsonChoice>)
    requires SpellsOut(StreamDeltas(lines), completion)
    ensures DistinctSites(JsonSites(builtin, completion))
    ensures (set site | site in JsonSites(builtin, completion)) == StreamSites(builtin, Built(StreamDeltas(lines)))
            <==> HasToolCalls(builtin, completion) || !NamesTool(builtin, completion)
  {
    hide SitesUpTo, StreamSites, HasToolCalls, NamesTool, Built, StreamDeltas;
    var builders := Built(StreamDeltas(lines));
    SpellingIsAssembled(StreamDeltas(lines), completion);
    NamedIsAssembled(builtin, builders, completion);
    SitesDistinct(builtin, completion, |completion|);
    forall site
      ensures site in SitesUpTo(builtin, completion, |completion|) <==> site in StreamSites(builtin, builders)
    {
      SitesAgree(builtin, builders, completion, site);
    }
  }

  /** A built-in call that the completion does not type as a function call: the stream handler executes it,
      the JSON handler does not. */
  lemma UntypedCallIsMissed(builtin: string) returns (lines: seq<Line>, completion: seq<JsonChoice>)
    requires builtin != "" && Trim(builtin) == builtin
    ensures SpellsOut(StreamDeltas(lines), completion)
    ensures JsonSites(builtin, completion) == [] && StreamSites(builtin, Built(StreamDeltas(lines))) != {}
  {
    hide Trim, StreamDeltas, Built, LastId, LastName, Joined, Own, StreamSites, CallOf, JsonCallOf;
    var t := ToolDelta(0, "", builtin, "");
    var d := DeltaOf(0, t);
    lines := [Data("", Chunk(None, [Choice(0, [t])]))];
    completion := [JsonChoice(0, [JsonCall("", builtin, "", false)])];
    OneChunk(t, lines);
    OneDelta(d);
    assert At(completion, (0, 0), 0, 0) && Own([d], (0, 0)) == [d];
    BuiltFromOwnDeltas([d], (0, 0));
    StreamSiteExactly(builtin, Built([d]), Site((0, 0), CallOf(Built([d])[(0, 0)])));
  }

  lemma OneChunk(t: ToolDelta, lines: seq<Line>)
    requires lines == [Data("", Chunk(None, [Choice(0, [t])]))]
    ensures StreamDeltas(lines) == [DeltaOf(0, t)]
  {
    hide DeltaOf;
    var choice := Choice(0, [t]);
    assert BeforeDone(lines) == 1 by {
      assert lines[..0] == [];
    }
    assert OfChoice(choice, 0) == [] && OfChoice(choice, 1) == [DeltaOf(0, t)];
    assert OfChoices([choice], 0) == [] && OfChoices([choice], 1) == [DeltaOf(0, t)];
    assert DeltasUpTo(lines, 0) == [];
  }

  lemma OneDelta(d: Delta)
    ensures forall k :: Own([d], k) == if d.key == k then [d] else []
    ensures LastId([d]) == Trim(d.id) && LastName([d]) == Trim(d.name) && Joined([d]) == d.arguments
  {
    hide Trim;
    assert [d][..0] == [];
    assert "" + d.arguments == d.arguments;
  }
}
