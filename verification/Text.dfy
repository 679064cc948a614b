/** Optional values and the whitespace trimming the router applies to every identifier it reads. */
module Text {

  datatype Option<+T> = None | Some(value: T)

  /** The Unicode white-space characters removed by strings.TrimSpace. */
  predicate IsSpace(c: char) {
    || '\U{0009}' <= c <= '\U{000D}'
    || c == ' '
    || c == '\U{0085}' || c == '\U{00A0}' || c == '\U{1680}'
    || '\U{2000}' <= c <= '\U{200A}'
    || c == '\U{2028}' || c == '\U{2029}' || c == '\U{202F}'
    || c == '\U{205F}' || c == '\U{3000}'
  }

  /** The first position from i on that holds no white space. */
  function TextStart(s: string, i: nat): (a: nat)
    requires i <= |s|
    ensures i <= a <= |s|
    ensures a < |s| ==> !IsSpace(s[a])
    decreases |s| - i
  {
    if i < |s| && IsSpace(s[i]) then TextStart(s, i + 1) else i
  }

  /** The end of the text between positions a and j. */
  function TextEnd(s: string, a: nat, j: nat): (b: nat)
    requires a <= j <= |s|
    ensures a <= b <= j
    ensures a < b ==> !IsSpace(s[b - 1])
  {
    if a < j && IsSpace(s[j - 1]) then TextEnd(s, a, j - 1) else j
  }

  function Trim(s: string): (r: string)
    ensures r != [] ==> !IsSpace(r[0]) && !IsSpace(r[|r| - 1])
  {
    var a := TextStart(s, 0);
    s[a..TextEnd(s, a, |s|)]
  }

  /** Trimming a trimmed identifier changes nothing, so ids survive being copied from event to event. */
  lemma TrimTwice(s: string)
    ensures Trim(Trim(s)) == Trim(s)
  {
    var t := Trim(s);
    assert TextStart(t, 0) == 0;
    assert TextEnd(t, 0, |t|) == |t|;
  }

  /** The first argument that is not blank, untrimmed. */
  function FirstNonEmpty(first: string, second: string): string {
    if Trim(first) != "" then first else if Trim(second) != "" then second else ""
  }

  predicate AllSpace(s: string) {
    forall i :: 0 <= i < |s| ==> IsSpace(s[i])
  }

  lemma {:induction false} StartSkipsSpace(s: string, i: nat)
    requires i <= |s|
    ensures AllSpace(s[i..TextStart(s, i)])
    decreases |s| - i
  {
    if i < |s| && IsSpace(s[i]) {
      StartSkipsSpace(s, i + 1);
      assert s[i..TextStart(s, i)] == [s[i]] + s[i + 1..TextStart(s, i + 1)];
    }
  }

  lemma {:induction false} EndSkipsSpace(s: string, a: nat, j: nat)
    requires a <= j <= |s|
    ensures AllSpace(s[TextEnd(s, a, j)..j])
  {
    if a < j && IsSpace(s[j - 1]) {
      EndSkipsSpace(s, a, j - 1);
      assert s[TextEnd(s, a, j)..j] == s[TextEnd(s, a, j - 1)..j - 1] + [s[j - 1]];
    }
  }

  lemma SpaceAppend(a: string, b: string)
    ensures AllSpace(a + b) <==> AllSpace(a) && AllSpace(b)
  {
    hide IsSpace;
    assert AllSpace(a + b) ==> forall i :: 0 <= i < |a| ==> (a + b)[i] == a[i];
    assert AllSpace(a + b) ==> forall i :: 0 <= i < |b| ==> (a + b)[|a| + i] == b[i];
  }

  /** Only white space is removed, and only around the text. */
  lemma TrimExactly(s: string) returns (before: string, after: string)
    ensures s == before + Trim(s) + after && AllSpace(before) && AllSpace(after)
    ensures Trim(s) == "" <==> AllSpace(s)
  {
    hide IsSpace, TextStart, TextEnd;
    var a := TextStart(s, 0);
    var b := TextEnd(s, a, |s|);
    StartSkipsSpace(s, 0);
    EndSkipsSpace(s, a, |s|);
    before, after := s[..a], s[b..];
    SpaceAppend(before + Trim(s), after);
    SpaceAppend(before, Trim(s));
  }
}
