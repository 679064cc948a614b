/** The request counter behind rate limiting (ratelimit/tracker.go). Times are nanoseconds. */
module RateLimit {

  const MINUTE: int := 60_000_000_000

  /** The start of the minute that contains t. */
  function Window(t: int): (w: int)
    ensures w <= t < w + MINUTE
    ensures w % MINUTE == 0
  {
    var w := t - t % MINUTE;
    assert w == (t / MINUTE) * MINUTE;
    w
  }

  lemma WindowMonotone(s: int, t: int)
    requires s <= t
    ensures Window(s) <= Window(t)
  {
    if Window(t) < Window(s) {
      WindowsApart(Window(t), Window(s));
    }
  }

  /** Different windows are at least a minute apart. */
  lemma WindowsApart(v: int, w: int)
    requires v % MINUTE == 0 && w % MINUTE == 0 && v < w
    ensures v + MINUTE <= w
  {
    assert v == (v / MINUTE) * MINUTE && w == (w / MINUTE) * MINUTE;
  }

  datatype Bucket = Bucket(count: int, windowStart: int)

  type Buckets = map<string, Bucket>

  datatype State = State(buckets: Buckets, lastCleanup: int)

  function BucketKey(apiKey: string, model: string): string {
    apiKey + ['\0'] + model
  }

  /** The bucket of a key after it was counted at time `now`. */
  function Counted(buckets: Buckets, key: string, now: int): Bucket {
    if key !in buckets then Bucket(1, Window(now))
    else
      var b := buckets[key];
      if Window(now) > b.windowStart then Bucket(1, Window(now)) else b.(count := b.count + 1)
  }

  predicate Stale(b: Bucket, now: int) {
    b.windowStart < now - 2 * MINUTE
  }

  function Evicted(buckets: Buckets, now: int): Buckets {
    map key | key in buckets && !Stale(buckets[key], now) :: buckets[key]
  }

  /** Counting one request: the bucket is updated, and stale ones are evicted at most once a minute. */
  function Record(s: State, key: string, now: int): State {
    var buckets := s.buckets[key := Counted(s.buckets, key, now)];
    if now - s.lastCleanup >= MINUTE then State(Evicted(buckets, now), now) else s.(buckets := buckets)
  }

  class RequestTracker {
    var buckets: Buckets
    var lastCleanup: int

    constructor (now: int)
      ensures View() == State(map[], now)
    {
      buckets, lastCleanup := map[], now;
    }

    function View(): State
      reads this
    {
      State(buckets, lastCleanup)
    }

    /** Counts one request read off the clock at `now` and says whether it reaches the limit. */
    method RecordAndCheck(apiKey: string, model: string, limit: int, now: int) returns (demote: bool)
      modifies this
      ensures apiKey == "" ==> View() == old(View()) && !demote
      ensures apiKey != "" ==>
                var key := BucketKey(apiKey, model);
                && View() == Record(old(View()), key, now)
                && (demote <==> limit > 0 && Counted(old(buckets), key, now).count >= limit)
    {
      if apiKey == "" {
        return false;
      }
      var key := BucketKey(apiKey, model);
      var b;
      if key !in buckets {
        b := Bucket(1, Window(now));
        buckets := buckets[key := b];
      } else {
        b := buckets[key];
        var windowStart := Window(now);
        if windowStart > b.windowStart {
          b := Bucket(0, windowStart);
        }
        b := b.(count := b.count + 1);
        buckets := buckets[key := b];
      }
      if now - lastCleanup >= MINUTE {
        Cleanup(now);
        lastCleanup := now;
      }
      if limit <= 0 {
        return false;
      }
      return b.count >= limit;
    }

    /** Deletes the buckets whose window started more than two minutes ago. */
    method Cleanup(now: int)
      modifies this`buckets
      ensures buckets == Evicted(old(buckets), now)
    {
      var pending := buckets.Keys;
      while pending != {}
        invariant pending <= buckets.Keys
        invariant forall key ::
          key in buckets <==> key in old(buckets) && (key in pending || !Stale(old(buckets)[key], now))
        invariant forall key :: key in buckets ==> buckets[key] == old(buckets)[key]
        decreases |pending|
      {
        var key :| key in pending;
        if Stale(buckets[key], now) {
          buckets := buckets - {key};
        }
        pending := pending - {key};
      }
    }
  }

  // ---- Runs ----

  datatype Call = Call(apiKey: string, model: string, limit: int, now: int)

  function KeyOf(c: Call): string {
    BucketKey(c.apiKey, c.model)
  }

  /** The state after the first i calls. */
  function After(start: State, calls: seq<Call>, i: nat): State
    requires i <= |calls|
  {
    if i == 0 then start
    else
      var s, c := After(start, calls, i - 1), calls[i - 1];
      if c.apiKey == "" then s else Record(s, KeyOf(c), c.now)
  }

  /** The answer to call i. */
  predicate Answer(start: State, calls: seq<Call>, i: nat)
    requires i < |calls|
  {
    var c := calls[i];
    && c.apiKey != "" && c.limit > 0
    && Counted(After(start, calls, i).buckets, KeyOf(c), c.now).count >= c.limit
  }

  /** Among the first i calls, those with a key in a window. */
  function CallsIn(calls: seq<Call>, i: nat, key: string, window: int): nat
    requires i <= |calls|
  {
    if i == 0 then 0
    else
      var c := calls[i - 1];
      CallsIn(calls, i - 1, key, window)
      + (if c.apiKey != "" && KeyOf(c) == key && Window(c.now) == window then 1 else 0)
  }

  predicate ClockNonDecreasing(calls: seq<Call>) {
    forall i, j :: 0 <= i < j < |calls| ==> calls[i].now <= calls[j].now
  }

  /** After i calls, the last of them at time t: every bucket counts its window and no call of its key is
      later; a missing bucket means that no call of its key is in the current window. */
  ghost predicate Tracks(s: State, calls: seq<Call>, i: nat, t: int)
    requires i <= |calls|
  {
    && (forall key :: key in s.buckets ==>
          && s.buckets[key].windowStart % MINUTE == 0
          && s.buckets[key].windowStart <= Window(t)
          && s.buckets[key].count == CallsIn(calls, i, key, s.buckets[key].windowStart)
          && (forall w :: w > s.buckets[key].windowStart ==> CallsIn(calls, i, key, w) == 0))
    && (forall key, w :: key !in s.buckets && w >= Window(t) ==> CallsIn(calls, i, key, w) == 0)
  }

  lemma {:induction false} NoCallLater(calls: seq<Call>, i: nat, t: int, key: string, w: int)
    requires i <= |calls| && w > Window(t)
    requires forall j :: 0 <= j < i ==> calls[j].now <= t
    ensures CallsIn(calls, i, key, w) == 0
  {
    if i > 0 {
      NoCallLater(calls, i - 1, t, key, w);
      WindowMonotone(calls[i - 1].now, t);
    }
  }

  /** What is counted for a call is the number of calls of its key in its window, itself included. */
  lemma CountsWindow(s: State, calls: seq<Call>, i: nat, t: int)
    requires i < |calls| && calls[i].apiKey != "" && Tracks(s, calls, i, t) && t <= calls[i].now
    ensures var key, w := KeyOf(calls[i]), Window(calls[i].now);
            Counted(s.buckets, key, calls[i].now) == Bucket(CallsIn(calls, i + 1, key, w), w)
  {
    hide Window, KeyOf;
    WindowMonotone(t, calls[i].now);
    var key, w := KeyOf(calls[i]), Window(calls[i].now);
    assert CallsIn(calls, i + 1, key, w) == CallsIn(calls, i, key, w) + 1;
    if key in s.buckets {
      assert s.buckets[key].windowStart <= w;
      if s.buckets[key].windowStart < w {
        assert CallsIn(calls, i, key, w) == 0;
      }
    } else {
      assert CallsIn(calls, i, key, w) == 0;
    }
  }

  lemma RecordTracks(s: State, calls: seq<Call>, i: nat, t: int)
    requires i < |calls| && calls[i].apiKey != "" && Tracks(s, calls, i, t) && t <= calls[i].now
    requires forall j :: 0 <= j < i ==> calls[j].now <= t
    ensures Tracks(Record(s, KeyOf(calls[i]), calls[i].now), calls, i + 1, calls[i].now)
  {
    hide Window, KeyOf;
    var key, now := KeyOf(calls[i]), calls[i].now;
    var s' := State(s.buckets[key := Counted(s.buckets, key, now)], s.lastCleanup);
    WindowMonotone(t, now);
    CountsWindow(s, calls, i, t);
    forall w | w > Window(now) ensures CallsIn(calls, i, key, w) == 0 {
      NoCallLater(calls, i, t, key, w);
    }
    forall k | k in s'.buckets
      ensures s'.buckets[k].windowStart % MINUTE == 0
      ensures s'.buckets[k].windowStart <= Window(now)
      ensures s'.buckets[k].count == CallsIn(calls, i + 1, k, s'.buckets[k].windowStart)
    {
    }
    var n := i + 1;
    forall k, w | k in s'.buckets && w > s'.buckets[k].windowStart
      ensures CallsIn(calls, n, k, w) == 0
    {
    }
    forall k, w | k !in s'.buckets && w >= Window(now)
      ensures CallsIn(calls, n, k, w) == 0
    {
    }
    assert Tracks(s', calls, i + 1, now);
    EvictionTracks(s', calls, i + 1, now);
  }

  /** Evicting stale buckets keeps the tracker right: no call of a stale key is in the current window. */
  lemma EvictionTracks(s: State, calls: seq<Call>, i: nat, now: int)
    requires i <= |calls| && Tracks(s, calls, i, now)
    ensures Tracks(State(Evicted(s.buckets, now), now), calls, i, now)
  {
    hide CallsIn;
    var e := Evicted(s.buckets, now);
    forall key, w | key !in e && w >= Window(now) ensures CallsIn(calls, i, key, w) == 0 {
      if key in s.buckets {
        assert Stale(s.buckets[key], now);
        assert w > s.buckets[key].windowStart;
        assert CallsIn(calls, i, key, w) == 0;
      }
    }
  }

  lemma {:induction false} AfterTracks(start: State, calls: seq<Call>, i: nat)
    requires start.buckets == map[] && i <= |calls| && ClockNonDecreasing(calls)
    ensures i > 0 ==> Tracks(After(start, calls, i), calls, i, calls[i - 1].now)
    ensures i == 0 ==> forall t :: Tracks(start, calls, 0, t)
  {
    hide Window, KeyOf;
    if i == 0 {
      return;
    }
    AfterTracks(start, calls, i - 1);
    var c, s := calls[i - 1], After(start, calls, i - 1);
    var t := if i == 1 then c.now else calls[i - 2].now;
    assert Tracks(s, calls, i - 1, t);
    if c.apiKey != "" {
      RecordTracks(s, calls, i - 1, t);
    } else {
      SkipTracks(s, calls, i - 1, t);
    }
  }

  /** A call without API key changes nothing. */
  lemma SkipTracks(s: State, calls: seq<Call>, i: nat, t: int)
    requires i < |calls| && calls[i].apiKey == "" && Tracks(s, calls, i, t) && t <= calls[i].now
    ensures Tracks(s, calls, i + 1, calls[i].now)
  {
    hide Window, KeyOf;
    WindowMonotone(t, calls[i].now);
    forall k | k in s.buckets
      ensures s.buckets[k].windowStart <= Window(calls[i].now)
      ensures s.buckets[k].count == CallsIn(calls, i + 1, k, s.buckets[k].windowStart)
    {
    }
    var n := i + 1;
    forall k, w | (k in s.buckets && w > s.buckets[k].windowStart) || (k !in s.buckets && w >= Window(calls[i].now))
      ensures CallsIn(calls, n, k, w) == 0
    {
      assert CallsIn(calls, i, k, w) == 0;
    }
  }

  predicate NulFree(s: string) {
    '\0' !in s
  }

  predicate FirstNulAt(s: string, i: nat) {
    i < |s| && s[i] == '\0' && forall j :: 0 <= j < i ==> s[j] != '\0'
  }

  lemma NulEndsKey(apiKey: string, model: string)
    requires NulFree(apiKey)
    ensures FirstNulAt(BucketKey(apiKey, model), |apiKey|)
    ensures BucketKey(apiKey, model)[..|apiKey|] == apiKey && BucketKey(apiKey, model)[|apiKey| + 1..] == model
  {
  }

  /** Keys without a NUL byte give each API key and model a bucket of their own. */
  lemma BucketKeyInjective(a: string, m: string, b: string, n: string)
    requires NulFree(a) && NulFree(b)
    ensures BucketKey(a, m) == BucketKey(b, n) <==> a == b && m == n
  {
    hide BucketKey, NulFree;
    NulEndsKey(a, m);
    NulEndsKey(b, n);
  }

  predicate LastNulAt(s: string, i: nat) {
    i < |s| && s[i] == '\0' && forall j :: i < j < |s| ==> s[j] != '\0'
  }

  lemma NulStartsModel(apiKey: string, model: string)
    requires NulFree(model)
    ensures LastNulAt(BucketKey(apiKey, model), |apiKey|)
    ensures BucketKey(apiKey, model)[..|apiKey|] == apiKey && BucketKey(apiKey, model)[|apiKey| + 1..] == model
  {
  }

  /** So do model names without one, whatever the API keys are. */
  lemma ModelNamesSuffice(a: string, m: string, b: string, n: string)
    requires NulFree(m) && NulFree(n)
    ensures BucketKey(a, m) == BucketKey(b, n) <==> a == b && m == n
  {
    hide BucketKey, NulFree;
    NulStartsModel(a, m);
    NulStartsModel(b, n);
  }

  /** An API key and a model have their bucket to themselves, among all keys and models there could be, if
      and only if neither contains a NUL byte. */
  lemma BucketIsPrivateExactly(a: string, m: string)
    ensures (forall b, n :: BucketKey(b, n) == BucketKey(a, m) ==> b == a && n == m) <==> NulFree(a) && NulFree(m)
  {
    if NulFree(a) && NulFree(m) {
      forall b, n | BucketKey(b, n) == BucketKey(a, m) ensures b == a && n == m {
        OnlyOneSplit(a, m, b, n);
      }
    } else if !NulFree(a) {
      var i :| 0 <= i < |a| && a[i] == '\0';
      var b, n := a[..i], a[i + 1..] + ['\0'] + m;
      assert BucketKey(b, n) == BucketKey(a, m) && |b| < |a|;
    } else {
      var i :| 0 <= i < |m| && m[i] == '\0';
      var b, n := a + ['\0'] + m[..i], m[i + 1..];
      assert BucketKey(b, n) == BucketKey(a, m) && |b| > |a|;
    }
  }

  lemma OnlyOneSplit(a: string, m: string, b: string, n: string)
    requires NulFree(a) && NulFree(m) && BucketKey(b, n) == BucketKey(a, m)
    ensures b == a && n == m
  {
    var x, y := BucketKey(a, m), BucketKey(b, n);
    NulEndsKey(a, m);
    NulStartsModel(a, m);
    assert y[|b|] == '\0' && y[..|b|] == b && y[|b| + 1..] == n;
  }

  /** Two pairs that share a bucket: both the API key of one and the model name of the other have a NUL. */
  lemma BucketKeyCollides()
    ensures BucketKey("a\0b", "c") == BucketKey("a", "b\0c")
  {
    assert "a\0b" + ['\0'] + "c" == "a\0b\0c";
    assert "a" + ['\0'] + "b\0c" == "a\0b\0c";
  }

  /** No two different pairs of the history can share a bucket: its API keys, or the model names that the
      tracker is asked about, are free of NUL bytes. */
  predicate Unambiguous(calls: seq<Call>) {
    || (forall j :: 0 <= j < |calls| ==> NulFree(calls[j].apiKey))
    || (forall j :: 0 <= j < |calls| ==> NulFree(calls[j].model))
  }

  lemma KeysTellApart(calls: seq<Call>, i: nat, j: nat)
    requires Unambiguous(calls) && i < |calls| && j < |calls|
    ensures KeyOf(calls[i]) == KeyOf(calls[j]) <==>
              calls[i].apiKey == calls[j].apiKey && calls[i].model == calls[j].model
  {
    hide BucketKey, NulFree;
    if forall k :: 0 <= k < |calls| ==> NulFree(calls[k].apiKey) {
      BucketKeyInjective(calls[i].apiKey, calls[i].model, calls[j].apiKey, calls[j].model);
    } else {
      ModelNamesSuffice(calls[i].apiKey, calls[i].model, calls[j].apiKey, calls[j].model);
    }
  }

  /** Two times share a window exactly if they are in the same minute of the clock. */
  lemma SameMinute(s: int, t: int)
    ensures Window(s) == Window(t) <==> s / 60_000_000_000 == t / 60_000_000_000
  {
    assert Window(s) == (s / MINUTE) * MINUTE && Window(t) == (t / MINUTE) * MINUTE;
  }

  /** The plain count a client would expect: its own calls for that model in that minute. */
  function PlainCount(calls: seq<Call>, i: nat, apiKey: string, model: string, minute: int): nat
    requires i <= |calls|
  {
    if i == 0 then 0
    else
      var c := calls[i - 1];
      PlainCount(calls, i - 1, apiKey, model, minute)
      + (if c.apiKey == apiKey && c.model == model && c.now / 60_000_000_000 == minute then 1 else 0)
  }

  lemma {:induction false} CountsAgree(calls: seq<Call>, i: nat, c: nat, now: int)
    requires i <= |calls| && c < |calls| && calls[c].apiKey != "" && Unambiguous(calls)
    ensures CallsIn(calls, i, KeyOf(calls[c]), Window(now))
         == PlainCount(calls, i, calls[c].apiKey, calls[c].model, now / 60_000_000_000)
  {
    hide Window, KeyOf, Unambiguous;
    if i > 0 {
      CountsAgree(calls, i - 1, c, now);
      KeysTellApart(calls, i - 1, c);
      SameMinute(calls[i - 1].now, now);
    }
  }

  /** The tracker refines an unbounded history: as long as the clock does not run backwards, a call is
      demoted exactly when its limit is positive and the calls of its API key for its model in its minute,
      itself included, number at least the limit. */
  lemma TrackerCountsHistory(start: State, calls: seq<Call>, i: nat)
    requires start.buckets == map[] && i < |calls| && ClockNonDecreasing(calls)
    requires Unambiguous(calls)
    ensures var c := calls[i];
            Answer(start, calls, i) <==>
              && c.apiKey != "" && c.limit > 0
              && PlainCount(calls, i + 1, c.apiKey, c.model, c.now / 60_000_000_000) >= c.limit
  {
    hide Window, Tracks, Counted, CallsIn, PlainCount, After, Unambiguous;
    var c, s := calls[i], After(start, calls, i);
    if c.apiKey != "" {
      AfterTracks(start, calls, i);
      var t := if i == 0 then c.now else calls[i - 1].now;
      assert Tracks(s, calls, i, t) by {
        if i == 0 {
          AfterNothing(start, calls);
        }
      }
      CountsWindow(s, calls, i, t);
      CountsAgree(calls, i + 1, i, c.now);
    }
  }

  lemma AfterNothing(start: State, calls: seq<Call>)
    ensures After(start, calls, 0) == start
  {
  }

  // ---- Eviction with clocks that run backwards ----

  /** The state after i calls of a tracker that never evicts. */
  function AfterKeeping(calls: seq<Call>, i: nat): Buckets
    requires i <= |calls|
  {
    if i == 0 then map[]
    else
      var b, c := AfterKeeping(calls, i - 1), calls[i - 1];
      if c.apiKey == "" then b else b[KeyOf(c) := Counted(b, KeyOf(c), c.now)]
  }

  /** No call's clock is more than `skew` behind that of an earlier call. */
  predicate SkewAtMost(calls: seq<Call>, skew: int) {
    forall i, j :: 0 <= i < j < |calls| ==> calls[i].now - skew <= calls[j].now
  }

  /** The largest skew that eviction tolerates: a minute and a nanosecond. */
  const TOLERATED: int := MINUTE + 1

  /** A bucket that only the keeping tracker still has cannot be the one of a later call's window. */
  predicate Outdated(b: Bucket, calls: seq<Call>, i: nat)
    requires i <= |calls|
  {
    b.windowStart % MINUTE == 0 && exists j :: 0 <= j < i && Stale(b, calls[j].now)
  }

  /** How the evicting tracker relates to the one that keeps everything. */
  predicate Forgets(s: State, kept: Buckets, calls: seq<Call>, i: nat)
    requires i <= |calls|
  {
    && (forall key :: key in s.buckets ==> key in kept && kept[key] == s.buckets[key])
    && (forall key :: key in kept ==> kept[key].windowStart % MINUTE == 0)
    && (forall key :: key in kept && key !in s.buckets ==> Outdated(kept[key], calls, i))
  }

  lemma OutdatedIsReset(b: Bucket, calls: seq<Call>, i: nat)
    requires i < |calls| && Outdated(b, calls, i) && SkewAtMost(calls, TOLERATED)
    ensures b.windowStart < Window(calls[i].now)
  {
    var j :| 0 <= j < i && Stale(b, calls[j].now);
    assert calls[j].now - TOLERATED <= calls[i].now;
    var w := Window(calls[i].now);
    assert calls[i].now < w + MINUTE;
    if w < b.windowStart {
      WindowsApart(w, b.windowStart);
    }
  }

  lemma ForgettingStep(s: State, kept: Buckets, calls: seq<Call>, i: nat)
    requires i < |calls| && calls[i].apiKey != "" && Forgets(s, kept, calls, i) && SkewAtMost(calls, TOLERATED)
    ensures var key, now := KeyOf(calls[i]), calls[i].now;
            && Counted(s.buckets, key, now) == Counted(kept, key, now)
            && Forgets(Record(s, key, now), kept[key := Counted(kept, key, now)], calls, i + 1)
  {
    hide Window, KeyOf, SkewAtMost;
    var key, now := KeyOf(calls[i]), calls[i].now;
    if key in kept && key !in s.buckets {
      OutdatedIsReset(kept[key], calls, i);
    }
    var b := Counted(kept, key, now);
    assert Counted(s.buckets, key, now) == b;
    var s', kept' := Record(s, key, now), kept[key := b];
    forall k | k in kept' && k !in s'.buckets ensures Outdated(kept'[k], calls, i + 1) {
      if k in s.buckets || k == key {
        assert Stale(kept'[k], calls[i].now);
      } else {
        var j :| 0 <= j < i && Stale(kept[k], calls[j].now);
        assert Stale(kept'[k], calls[j].now);
      }
    }
  }

  lemma {:induction false} EvictionForgetsOnly(start: State, calls: seq<Call>, i: nat)
    requires start.buckets == map[] && i <= |calls| && SkewAtMost(calls, TOLERATED)
    ensures Forgets(After(start, calls, i), AfterKeeping(calls, i), calls, i)
  {
    hide KeyOf, Counted, SkewAtMost, Record;
    if i > 0 {
      EvictionForgetsOnly(start, calls, i - 1);
      if calls[i - 1].apiKey != "" {
        ForgettingStep(After(start, calls, i - 1), AfterKeeping(calls, i - 1), calls, i - 1);
      } else {
        var kept, s := AfterKeeping(calls, i - 1), After(start, calls, i - 1);
        forall k | k in kept && k !in s.buckets ensures Outdated(kept[k], calls, i) {
          var j :| 0 <= j < i - 1 && Stale(kept[k], calls[j].now);
          assert Stale(kept[k], calls[j].now);
        }
      }
    }
  }

  /** Eviction is unobservable even when concurrent callers' clocks run backwards by a minute: every call
      is counted as if no bucket had ever been deleted. */
  lemma EvictionUnobservable(start: State, calls: seq<Call>, i: nat)
    requires start.buckets == map[] && i < |calls| && calls[i].apiKey != "" && SkewAtMost(calls, TOLERATED)
    ensures Counted(After(start, calls, i).buckets, KeyOf(calls[i]), calls[i].now)
         == Counted(AfterKeeping(calls, i), KeyOf(calls[i]), calls[i].now)
  {
    hide After, AfterKeeping, KeyOf, Record, Forgets, SkewAtMost;
    EvictionForgetsOnly(start, calls, i);
    ForgettingStep(After(start, calls, i), AfterKeeping(calls, i), calls, i);
  }

  /** One nanosecond more and eviction shows: a client gets its first count in a minute twice. */
  lemma MoreSkewIsObservable()
    ensures var start := State(map[], 0);
            var calls := [Call("a", "m", 2, 0), Call("b", "m", 2, 2 * MINUTE + 1), Call("a", "m", 2, MINUTE - 1)];
            && SkewAtMost(calls, TOLERATED + 1)
            && Counted(After(start, calls, 2).buckets, KeyOf(calls[2]), calls[2].now).count == 1
            && Counted(AfterKeeping(calls, 2), KeyOf(calls[2]), calls[2].now).count == 2
  {
    var start := State(map[], 0);
    var calls := [Call("a", "m", 2, 0), Call("b", "m", 2, 2 * MINUTE + 1), Call("a", "m", 2, MINUTE - 1)];
    BucketKeyInjective("a", "m", "b", "m");
    hide BucketKey;
    var a, b := BucketKey("a", "m"), BucketKey("b", "m");
    assert Window(0) == 0 && Window(MINUTE - 1) == 0;
    assert After(start, calls, 0) == start;
    assert After(start, calls, 1) == State(map[a := Bucket(1, 0)], 0);
    var kept := map[a := Bucket(1, 0), b := Bucket(1, Window(2 * MINUTE + 1))];
    assert AfterKeeping(calls, 1) == map[a := Bucket(1, 0)];
    assert AfterKeeping(calls, 2) == kept;
    assert After(start, calls, 2) == State(Evicted(kept, 2 * MINUTE + 1), 2 * MINUTE + 1);
    assert a !in Evicted(kept, 2 * MINUTE + 1);
  }
}
