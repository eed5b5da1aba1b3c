/** The sliding-window limiter of login requests, against the history of what it admitted. Times are in seconds. */
module RateLimit {
  import opened Common

  datatype Decision = Decision(allowed: bool, retryAfter: int)

  datatype Admission = Admission(at: real, source: Option<string>)

  // ---- History -------------------------------------------------------------------------

  function Times(h: seq<Admission>): seq<real> {
    if h == [] then [] else Times(h[..|h| - 1]) + [h[|h| - 1].at]
  }

  function TimesOf(h: seq<Admission>, source: string): seq<real> {
    if h == [] then []
    else
      var rest := TimesOf(h[..|h| - 1], source);
      if h[|h| - 1].source == Some(source) then rest + [h[|h| - 1].at] else rest
  }

  /** The times strictly after the cutoff. */
  function After(ts: seq<real>, cutoff: real): seq<real> {
    if ts == [] then []
    else After(ts[..|ts| - 1], cutoff) + if ts[|ts| - 1] > cutoff then [ts[|ts| - 1]] else []
  }

  predicate Sorted(ts: seq<real>) {
    forall i, j :: 0 <= i < j < |ts| ==> ts[i] <= ts[j]
  }

  /** How many of the times lie in the half-open window of the given length ending at `t`. */
  function InWindow(ts: seq<real>, t: real, length: real): nat {
    if ts == [] then 0
    else InWindow(ts[..|ts| - 1], t, length) + if t - length < ts[|ts| - 1] <= t then 1 else 0
  }

  /** Each time was admitted with fewer than `max` earlier ones still in its window. */
  ghost predicate Spaced(ts: seq<real>, length: real, max: nat) {
    forall i :: 0 <= i < |ts| ==> SpacedAt(ts, i, length, max)
  }

  ghost predicate SpacedAt(ts: seq<real>, i: nat, length: real, max: nat)
    requires i < |ts|
  {
    |After(ts[..i], ts[i] - length)| < max
  }

  // ---- Facts about time lists ----------------------------------------------------------

  lemma {:induction false} AfterAll(ts: seq<real>, cutoff: real)
    requires forall i :: 0 <= i < |ts| ==> ts[i] > cutoff
    ensures After(ts, cutoff) == ts
  {
    if ts != [] {
      AfterAll(ts[..|ts| - 1], cutoff);
    }
  }

  lemma {:induction false} AfterSubset(ts: seq<real>, cutoff: real)
    ensures forall x :: x in After(ts, cutoff) <==> x in ts && x > cutoff
    ensures Sorted(ts) ==> Sorted(After(ts, cutoff))
  {
    if ts != [] {
      var n := |ts| - 1;
      AfterSubset(ts[..n], cutoff);
      assert ts == ts[..n] + [ts[n]];
      var before := After(ts[..n], cutoff);
      if Sorted(ts) {
        forall i | 0 <= i < |before|
          ensures before[i] <= ts[n]
        {
          assert before[i] in before;
          assert before[i] in ts[..n];
        }
      }
    }
  }

  /** Pruning twice is pruning at the later cutoff. */
  lemma {:induction false} AfterAfter(ts: seq<real>, c: real, c': real)
    requires c <= c'
    ensures After(After(ts, c), c') == After(ts, c')
  {
    if ts != [] {
      var n := |ts| - 1;
      var before := After(ts[..n], c);
      AfterAfter(ts[..n], c, c');
      if ts[n] > c {
        assert After(ts, c) == before + [ts[n]];
        AfterSnoc(before, ts[n], c');
      } else {
        assert After(ts, c) == before;
      }
    }
  }

  lemma {:induction false} AfterSnoc(ts: seq<real>, x: real, c: real)
    ensures After(ts + [x], c) == After(ts, c) + if x > c then [x] else []
  {
    assert (ts + [x])[..|ts|] == ts;
  }

  /** On a sorted list, dropping an old head drops nothing else. */
  lemma {:induction false} AfterDropHead(ts: seq<real>, c: real)
    requires ts != [] && ts[0] <= c
    ensures After(ts, c) == After(ts[1..], c)
  {
    var n := |ts| - 1;
    if n > 0 {
      AfterDropHead(ts[..n], c);
      assert ts[..n][1..] == ts[1..][..n - 1];
    }
  }

  lemma {:induction false} AppendKeepsSpaced(ts: seq<real>, x: real, length: real, max: nat)
    requires Spaced(ts, length, max) && |After(ts, x - length)| < max
    ensures Spaced(ts + [x], length, max)
  {
    var ts' := ts + [x];
    forall i | 0 <= i < |ts'|
      ensures SpacedAt(ts', i, length, max)
    {
      if i < |ts| {
        assert SpacedAt(ts, i, length, max);
        assert ts'[..i] == ts[..i];
      } else {
        assert ts'[..i] == ts;
      }
    }
  }

  /** Fewer times lie in a window ending at `t` than after any cutoff at or before its start. */
  lemma {:induction false} WindowAfter(ts: seq<real>, t: real, length: real, cutoff: real)
    requires cutoff <= t - length
    ensures InWindow(ts, t, length) <= |After(ts, cutoff)|
  {
    if ts != [] {
      WindowAfter(ts[..|ts| - 1], t, length, cutoff);
    }
  }

  /** No window of the given length, wherever it ends, holds more than the maximum. */
  lemma {:induction false} NoWindowOverflows(ts: seq<real>, length: real, max: nat, t: real)
    requires Sorted(ts) && Spaced(ts, length, max)
    ensures InWindow(ts, t, length) <= max
  {
    if ts != [] {
      var n := |ts| - 1;
      if t - length < ts[n] <= t {
        assert SpacedAt(ts, n, length, max);
        WindowUpTo(ts[..n], t, ts[n], length);
      } else {
        forall i | 0 <= i < n
          ensures SpacedAt(ts[..n], i, length, max)
        {
          assert SpacedAt(ts, i, length, max);
          assert ts[..n][..i] == ts[..i];
        }
        NoWindowOverflows(ts[..n], length, max, t);
      }
    }
  }

  /** What a later window sees of earlier times, the window of the newest admission saw as well. */
  lemma {:induction false} WindowUpTo(ts: seq<real>, t: real, x: real, length: real)
    requires x <= t
    ensures InWindow(ts, t, length) <= |After(ts, x - length)|
  {
    if ts != [] {
      WindowUpTo(ts[..|ts| - 1], t, x, length);
    }
  }

  // ---- Retry ---------------------------------------------------------------------------

  /** Truncation toward zero, as `int()` does. */
  function Truncate(x: real): int {
    if x >= 0.0 then x.Floor else -((-x).Floor)
  }

  function RetryAfter(attempts: seq<real>, now: real, max: nat, window: nat): int {
    if |attempts| < max || attempts == [] then 0
    else Max(1, Truncate(window as real - (now - attempts[0]) + 0.999))
  }

  /** Whether fewer than `max` of the times lie within the given length before the moment. */
  predicate RoomAt(ts: seq<real>, moment: real, length: real, max: nat) {
    |After(ts, moment - length)| < max
  }

  lemma {:induction false} RetryBounds(attempts: seq<real>, now: real, max: nat, window: nat)
    requires 1 <= max <= |attempts| && window >= 1
    requires now - window as real < attempts[0] <= now
    ensures 1 <= RetryAfter(attempts, now, max, window) <= window
  {
    var remaining := window as real - (now - attempts[0]);
    assert 0.0 < remaining <= window as real;
    assert (remaining + 0.999).Floor <= window;
  }

  predicate OnMillisecond(x: real) {
    1000.0 * x == (1000.0 * x).Floor as real
  }

  /** What is left of the window of the oldest request. */
  function Left(oldest: real, now: real, window: nat): real {
    window as real - (now - oldest)
  }

  /**
   The time left is no more than a second, or whole seconds, or at least a millisecond beyond whole seconds.
   Only a remainder of less than a millisecond is lost when 0.999 is added before truncating.
   */
  predicate AdviceSuffices(left: real) {
    left <= 1.0 || left == left.Floor as real || left - left.Floor as real >= 0.001
  }

  lemma AdviceCovers(left: real)
    ensures left <= Max(1, Truncate(left + 0.999)) as real <==> AdviceSuffices(left)
  {
    if left > 1.0 {
      var whole := left.Floor;
      var part := left - whole as real;
      assert (left + 0.999).Floor == if part >= 0.001 then whole + 1 else whole;
    }
  }

  /**
   With no other admissions, the full limit clears after the advised wait exactly when the time left of the
   oldest request is not a fraction of a millisecond beyond whole seconds.
   */
  lemma {:induction false} RetryClearsExactly(attempts: seq<real>, now: real, max: nat, window: nat)
    requires |attempts| == max >= 1 && Sorted(attempts)
    ensures RoomAt(attempts, now + RetryAfter(attempts, now, max, window) as real, window as real, max)
            <==> AdviceSuffices(Left(attempts[0], now, window))
  {
    AdviceCovers(Left(attempts[0], now, window));
    var cutoff := now + RetryAfter(attempts, now, max, window) as real - window as real;
    if attempts[0] <= cutoff {
      AfterDropHead(attempts, cutoff);
      AfterShorter(attempts[1..], cutoff);
    } else {
      AfterAll(attempts, cutoff);
    }
  }

  lemma {:induction false} AfterShorter(ts: seq<real>, c: real)
    ensures |After(ts, c)| <= |ts|
  {
    if ts != [] {
      AfterShorter(ts[..|ts| - 1], c);
    }
  }

  /** On a clock that ticks in milliseconds the advised wait always suffices. */
  lemma MillisecondsSuffice(oldest: real, now: real, window: nat)
    requires OnMillisecond(now) && OnMillisecond(oldest)
    ensures AdviceSuffices(Left(oldest, now, window))
  {
    var left := Left(oldest, now, window);
    var ms := 1000 * window - ((1000.0 * now).Floor - (1000.0 * oldest).Floor);
    assert 1000.0 * left == ms as real;
    var part := ms - 1000 * left.Floor;
    assert 1000.0 * (left - left.Floor as real) == part as real;
    assert part == 0 || part >= 1;
  }

  /** On a finer clock it may not: half a millisecond past the second, the advice is one second short. */
  lemma RetryTooShortOnFinerClock()
    ensures var attempts := [0.0005];
            RetryAfter(attempts, 1.0, 1, 2) == 1
            && |After(attempts, 1.0 + 1.0 - 2.0)| == 1
  {
    AfterAll([0.0005], 0.0);
    assert (1.0005 + 0.999).Floor == 1;
  }

  // ---- What the limiter's fields mean ----------------------------------------------------

  ghost predicate DequeOk(ts: seq<real>, last: real, length: real, max: nat) {
    Sorted(ts) && (forall x :: x in ts ==> x <= last) && Spaced(ts, length, max)
  }

  /** A source has a deque exactly while it has admissions in its window, and the deque is those. */
  ghost predicate SourceOk(
    h: seq<Admission>, attempts: map<string, seq<real>>, s: string, last: real, window: nat, max: nat)
  {
    && DequeOk(TimesOf(h, s), last, window as real, max)
    && (s in attempts <==> After(TimesOf(h, s), last - window as real) != [])
    && (s in attempts ==> attempts[s] == After(TimesOf(h, s), last - window as real))
  }

  ghost predicate PrunedAt(before: map<string, seq<real>>, after: map<string, seq<real>>, s: string, now: real, window: nat) {
    && (s in after <==> s in before && After(before[s], now - window as real) != [])
    && (s in after ==> after[s] == After(before[s], now - window as real))
  }

  ghost predicate GlobalOk(ts: seq<real>, attempts: seq<real>, last: real, window: nat, max: nat) {
    && DequeOk(ts, last, window as real, max)
    && attempts == After(ts, last - window as real)
  }

  lemma {:induction false} DequeLater(ts: seq<real>, last: real, now: real, length: real, max: nat)
    requires last <= now && DequeOk(ts, last, length, max)
    ensures DequeOk(ts, now, length, max)
  {
  }

  lemma {:induction false} DequeSorted(ts: seq<real>, cutoff: real, later: real)
    requires Sorted(ts) && cutoff <= later
    ensures Sorted(After(ts, cutoff)) && After(After(ts, cutoff), later) == After(ts, later)
  {
    AfterSubset(ts, cutoff);
    AfterAfter(ts, cutoff, later);
  }

  lemma {:induction false} WindowRefreshed(ts: seq<real>, last: real, now: real, length: real, max: nat)
    requires last <= now && DequeOk(ts, last, length, max)
    ensures DequeOk(ts, now, length, max) && Sorted(After(ts, last - length))
    ensures After(After(ts, last - length), now - length) == After(ts, now - length)
  {
    DequeLater(ts, last, now, length, max);
    DequeSorted(ts, last - length, now - length);
  }

  lemma {:induction false} GlobalRefreshed(ts: seq<real>, attempts: seq<real>, last: real, now: real, window: nat, max: nat)
    requires last <= now && GlobalOk(ts, attempts, last, window, max)
    ensures Sorted(attempts)
    ensures GlobalOk(ts, After(attempts, now - window as real), now, window, max)
  {
    WindowRefreshed(ts, last, now, window as real, max);
  }

  lemma {:induction false} SourceRefreshed(
    h: seq<Admission>, before: map<string, seq<real>>, after: map<string, seq<real>>, s: string,
    last: real, now: real, window: nat, max: nat)
    requires last <= now && SourceOk(h, before, s, last, window, max) && PrunedAt(before, after, s, now, window)
    ensures SourceOk(h, after, s, now, window, max)
  {
    WindowRefreshed(TimesOf(h, s), last, now, window as real, max);
  }

  lemma SourcesRefreshed(
    h: seq<Admission>, before: map<string, seq<real>>, after: map<string, seq<real>>,
    last: real, now: real, window: nat, max: nat)
    requires last <= now && (forall s :: SourceOk(h, before, s, last, window, max))
    requires forall s :: PrunedAt(before, after, s, now, window)
    ensures forall s :: SourceOk(h, after, s, now, window, max)
  {
    forall s
      ensures SourceOk(h, after, s, now, window, max)
    {
      SourceRefreshed(h, before, after, s, last, now, window, max);
    }
  }

  lemma SourcesSorted(h: seq<Admission>, attempts: map<string, seq<real>>, last: real, window: nat, max: nat)
    requires forall s :: SourceOk(h, attempts, s, last, window, max)
    ensures forall s :: s in attempts ==> Sorted(attempts[s])
  {
    forall s | s in attempts
      ensures Sorted(attempts[s])
    {
      SourceSorted(h, attempts, s, last, window, max);
    }
  }

  lemma {:induction false} SourceSorted(h: seq<Admission>, attempts: map<string, seq<real>>, s: string, last: real, window: nat, max: nat)
    requires SourceOk(h, attempts, s, last, window, max) && s in attempts
    ensures Sorted(attempts[s])
  {
    AfterSubset(TimesOf(h, s), last - window as real);
  }

  lemma {:induction false} OldestInWindow(ts: seq<real>, now: real, length: real)
    requires After(ts, now - length) != [] && forall x :: x in ts ==> x <= now
    ensures now - length < After(ts, now - length)[0] <= now
  {
    AfterSubset(ts, now - length);
    assert After(ts, now - length)[0] in After(ts, now - length);
  }

  /** The advice is zero while there is room, and otherwise lies within the window. */
  lemma {:induction false} WaitWithinWindow(ts: seq<real>, attempts: seq<real>, now: real, max: nat, window: nat)
    requires GlobalOk(ts, attempts, now, window, max) && max >= 1 && window >= 1
    ensures |attempts| < max ==> RetryAfter(attempts, now, max, window) == 0
    ensures |attempts| >= max ==> 1 <= RetryAfter(attempts, now, max, window) <= window
  {
    if |attempts| >= max {
      OldestInWindow(ts, now, window as real);
      RetryBounds(attempts, now, max, window);
    }
  }

  lemma {:induction false} AppendKeepsDeque(ts: seq<real>, now: real, length: real, max: nat)
    requires DequeOk(ts, now, length, max) && |After(ts, now - length)| < max && length > 0.0
    ensures DequeOk(ts + [now], now, length, max)
    ensures After(ts + [now], now - length) == After(ts, now - length) + [now]
  {
    AppendKeepsSpaced(ts, now, length, max);
    AfterSnoc(ts, now, now - length);
    assert forall i :: 0 <= i < |ts| ==> ts[i] in ts;
  }

  lemma {:induction false} GlobalAppended(h: seq<Admission>, attempts: seq<real>, a: Admission, window: nat, max: nat)
    requires window >= 1 && GlobalOk(Times(h), attempts, a.at, window, max) && |attempts| < max
    ensures GlobalOk(Times(h + [a]), attempts + [a.at], a.at, window, max)
  {
    assert (h + [a])[..|h|] == h;
    AppendKeepsDeque(Times(h), a.at, window as real, max);
  }

  /** The source's deque, empty if there is none. */
  function DequeOf(attempts: map<string, seq<real>>, s: string): seq<real> {
    if s in attempts then attempts[s] else []
  }

  lemma {:induction false} TimesOfSnoc(h: seq<Admission>, a: Admission, s: string)
    ensures TimesOf(h + [a], s) == if a.source == Some(s) then TimesOf(h, s) + [a.at] else TimesOf(h, s)
  {
    assert (h + [a])[..|h|] == h;
  }

  lemma {:induction false} SourceAppended(
    h: seq<Admission>, before: map<string, seq<real>>, after: map<string, seq<real>>, a: Admission, s: string,
    window: nat, max: nat)
    requires window >= 1 && SourceOk(h, before, s, a.at, window, max)
    requires a.source == Some(s) ==> |After(TimesOf(h, s), a.at - window as real)| < max
    requires if a.source == Some(s) then s in after && after[s] == DequeOf(before, s) + [a.at]
             else (s in after <==> s in before) && (s in after ==> after[s] == before[s])
    ensures SourceOk(h + [a], after, s, a.at, window, max)
  {
    TimesOfSnoc(h, a, s);
    if a.source == Some(s) {
      AppendKeepsDeque(TimesOf(h, s), a.at, window as real, max);
    }
  }

  lemma SourcesAppended(
    h: seq<Admission>, before: map<string, seq<real>>, after: map<string, seq<real>>, a: Admission, window: nat, max: nat)
    requires window >= 1 && forall s :: SourceOk(h, before, s, a.at, window, max)
    requires a.source.Some? ==> |After(TimesOf(h, a.source.value), a.at - window as real)| < max
    requires after == if a.source.Some? then before[a.source.value := DequeOf(before, a.source.value) + [a.at]] else before
    ensures forall s :: SourceOk(h + [a], after, s, a.at, window, max)
  {
    forall s
      ensures SourceOk(h + [a], after, s, a.at, window, max)
    {
      assert SourceOk(h, before, s, a.at, window, max);
      SourceAppended(h, before, after, a, s, window, max);
    }
  }

  // ---- The limiter ---------------------------------------------------------------------

  class LoginRequestLimiter {
    const sourceMax: nat
    const sourceWindow: nat
    const globalMax: nat
    const globalWindow: nat
    var globalAttempts: seq<real>
    var sourceAttempts: map<string, seq<real>>
    ghost var history: seq<Admission>
    ghost var last: real

    /** The deques hold exactly the admitted requests of their window, and no window was ever overfull. */
    ghost predicate Valid()
      reads this
    {
      && sourceMax >= 1 && sourceWindow >= 1 && globalMax >= 1 && globalWindow >= 1
      && GlobalOk(Times(history), globalAttempts, last, globalWindow, globalMax)
      && (forall s :: SourceOk(history, sourceAttempts, s, last, sourceWindow, sourceMax))
    }

    constructor (sourceMaxRequests: nat, sourceWindowSeconds: nat, globalMaxRequests: nat, globalWindowSeconds: nat)
      requires sourceMaxRequests >= 1 && globalMaxRequests >= 1 && sourceWindowSeconds >= 1 && globalWindowSeconds >= 1
      ensures Valid() && history == []
      ensures sourceMax == sourceMaxRequests && sourceWindow == sourceWindowSeconds
      ensures globalMax == globalMaxRequests && globalWindow == globalWindowSeconds
    {
      sourceMax, sourceWindow := sourceMaxRequests, sourceWindowSeconds;
      globalMax, globalWindow := globalMaxRequests, globalWindowSeconds;
      globalAttempts, sourceAttempts, history, last := [], map[], [], 0.0;
    }

    static method Prune(attempts: seq<real>, cutoff: real) returns (kept: seq<real>)
      requires Sorted(attempts)
      ensures kept == After(attempts, cutoff)
    {
      kept := attempts;
      while kept != [] && kept[0] <= cutoff
        invariant Sorted(kept)
        invariant After(kept, cutoff) == After(attempts, cutoff)
        decreases |kept|
      {
        AfterDropHead(kept, cutoff);
        kept := kept[1..];
      }
      AfterAll(kept, cutoff);
    }

    static method RetrySeconds(attempts: seq<real>, now: real, max: nat, window: nat) returns (seconds: int)
      requires max >= 1
      ensures seconds == RetryAfter(attempts, now, max, window)
    {
      if |attempts| < max {
        return 0;
      }
      var remaining := window as real - (now - attempts[0]);
      seconds := Max(1, Truncate(remaining + 0.999));
    }

    /** Prunes every source's deque and drops the ones left empty. */
    method PruneSources(now: real)
      requires forall s :: s in sourceAttempts ==> Sorted(sourceAttempts[s])
      modifies this`sourceAttempts
      ensures forall s :: PrunedAt(old(sourceAttempts), sourceAttempts, s, now, sourceWindow)
    {
      var cutoff := now - sourceWindow as real;
      var left, kept := sourceAttempts.Keys, map[];
      while left != {}
        invariant sourceAttempts == old(sourceAttempts)
        invariant left <= sourceAttempts.Keys && kept.Keys <= sourceAttempts.Keys - left
        invariant forall s :: s !in left ==> PrunedAt(sourceAttempts, kept, s, now, sourceWindow)
        decreases left
      {
        var s :| s in left;
        var attempts := Prune(sourceAttempts[s], cutoff);
        if attempts != [] {
          kept := kept[s := attempts];
        }
        left := left - {s};
      }
      sourceAttempts := kept;
    }

    /** Brings the deques up to the present moment. */
    method Refresh(now: real)
      requires Valid() && last <= now
      modifies this
      ensures Valid() && last == now && history == old(history)
    {
      GlobalRefreshed(Times(history), globalAttempts, last, now, globalWindow, globalMax);
      globalAttempts := Prune(globalAttempts, now - globalWindow as real);
      ghost var before := sourceAttempts;
      SourcesSorted(history, before, last, sourceWindow, sourceMax);
      PruneSources(now);
      SourcesRefreshed(history, before, sourceAttempts, last, now, sourceWindow, sourceMax);
      last := now;
    }

    /** Admits iff both windows, as the history defines them, have room; what is admitted joins the history. */
    method Check(now: real, source: Option<string>) returns (d: Decision)
      requires Valid() && last <= now
      modifies this
      ensures Valid() && last == now
      ensures d.allowed <==>
                && |After(Times(old(history)), now - globalWindow as real)| < globalMax
                && (source.Some? ==> |After(TimesOf(old(history), source.value), now - sourceWindow as real)| < sourceMax)
      ensures history == if d.allowed then old(history) + [Admission(now, source)] else old(history)
      ensures !d.allowed && globalMax <= |globalAttempts| ==>
                1 <= d.retryAfter <= globalWindow && d.retryAfter == RetryAfter(globalAttempts, now, globalMax, globalWindow)
      ensures !d.allowed && |globalAttempts| < globalMax ==>
                && source.Some? && source.value in sourceAttempts
                && 1 <= d.retryAfter <= sourceWindow
                && d.retryAfter == RetryAfter(sourceAttempts[source.value], now, sourceMax, sourceWindow)
    {
      Refresh(now);
      var retry := RetrySeconds(globalAttempts, now, globalMax, globalWindow);
      WaitWithinWindow(Times(history), globalAttempts, now, globalMax, globalWindow);
      if retry != 0 {
        return Decision(false, retry);
      }
      if source.Some? {
        assert SourceOk(history, sourceAttempts, source.value, now, sourceWindow, sourceMax);
        var attempts := DequeOf(sourceAttempts, source.value);
        retry := RetrySeconds(attempts, now, sourceMax, sourceWindow);
        WaitWithinWindow(TimesOf(history, source.value), attempts, now, sourceMax, sourceWindow);
        if retry != 0 {
          return Decision(false, retry);
        }
      }
      Append(now, source);
      return Decision(true, 0);
    }

    /** Books an admitted request in the deques and in the history. */
    method Append(now: real, source: Option<string>)
      requires Valid() && last == now && |globalAttempts| < globalMax
      requires source.Some? ==> |After(TimesOf(history, source.value), now - sourceWindow as real)| < sourceMax
      modifies this
      ensures Valid() && last == now && history == old(history) + [Admission(now, source)]
    {
      var a := Admission(now, source);
      GlobalAppended(history, globalAttempts, a, globalWindow, globalMax);
      globalAttempts := globalAttempts + [now];
      if source.Some? {
        sourceAttempts := sourceAttempts[source.value := DequeOf(sourceAttempts, source.value) + [now]];
      }
      SourcesAppended(history, old(sourceAttempts), sourceAttempts, a, sourceWindow, sourceMax);
      history := history + [a];
    }
  }

  // ---- What a denial promises ------------------------------------------------------------

  /** Times up to now lie in the window ending now iff they lie after its start. */
  lemma {:induction false} WindowNow(ts: seq<real>, now: real, length: real)
    requires forall x :: x in ts ==> x <= now
    ensures InWindow(ts, now, length) == |After(ts, now - length)|
  {
    if ts != [] {
      var n := |ts| - 1;
      assert ts[n] in ts && forall x :: x in ts[..n] ==> x in ts;
      WindowNow(ts[..n], now, length);
    }
  }

  /** A deque never outgrows its maximum. */
  lemma {:induction false} DequeWithinMax(ts: seq<real>, now: real, length: real, max: nat)
    requires DequeOk(ts, now, length, max)
    ensures |After(ts, now - length)| <= max
  {
    WindowNow(ts, now, length);
    NoWindowOverflows(ts, length, max, now);
  }

  /** A full window is a sorted list of exactly the maximum. */
  lemma {:induction false} FullWindow(ts: seq<real>, now: real, length: real, max: nat)
    requires DequeOk(ts, now, length, max) && |After(ts, now - length)| >= max >= 1
    ensures |After(ts, now - length)| == max && Sorted(After(ts, now - length)) && After(ts, now - length)[0] in ts
  {
    DequeWithinMax(ts, now, length, max);
    AfterSubset(ts, now - length);
    assert After(ts, now - length)[0] in After(ts, now - length);
  }

  /** Pruning earlier does not change whether there is room later. */
  lemma {:induction false} RoomAfterPruning(ts: seq<real>, cutoff: real, moment: real, length: real, max: nat)
    requires cutoff <= moment - length
    ensures RoomAt(After(ts, cutoff), moment, length, max) <==> RoomAt(ts, moment, length, max)
  {
    AfterAfter(ts, cutoff, moment - length);
  }

  lemma {:induction false} WaitIsPositive(attempts: seq<real>, now: real, max: nat, window: nat)
    requires |attempts| >= max >= 1
    ensures RetryAfter(attempts, now, max, window) >= 1
  {
  }

  /**
   A full window of the history clears after the advised wait exactly when the advice suffices, so always on
   a clock of whole milliseconds.
   */
  lemma {:induction false} DenialClears(ts: seq<real>, attempts: seq<real>, now: real, max: nat, window: nat)
    requires GlobalOk(ts, attempts, now, window, max) && |attempts| >= max >= 1
    ensures |attempts| == max
    ensures RoomAt(ts, now + RetryAfter(attempts, now, max, window) as real, window as real, max)
            <==> AdviceSuffices(Left(attempts[0], now, window))
    ensures OnMillisecond(now) && AllOnMillisecond(ts) ==> AdviceSuffices(Left(attempts[0], now, window))
  {
    var wait := RetryAfter(attempts, now, max, window);
    FullWindow(ts, now, window as real, max);
    WaitIsPositive(attempts, now, max, window);
    RetryClearsExactly(attempts, now, max, window);
    RoomAfterPruning(ts, now - window as real, now + wait as real, window as real, max);
    if OnMillisecond(now) && AllOnMillisecond(ts) {
      MillisecondsSuffice(attempts[0], now, window);
    }
  }

  predicate AllOnMillisecond(ts: seq<real>) {
    forall x :: x in ts ==> OnMillisecond(x)
  }

  /** The global deque is never longer than its maximum, and no source's is. */
  lemma DequesWithinMax(l: LoginRequestLimiter, source: string)
    requires l.Valid()
    ensures |l.globalAttempts| <= l.globalMax
    ensures source in l.sourceAttempts ==> |l.sourceAttempts[source]| <= l.sourceMax
  {
    DequeWithinMax(Times(l.history), l.last, l.globalWindow as real, l.globalMax);
    assert SourceOk(l.history, l.sourceAttempts, source, l.last, l.sourceWindow, l.sourceMax);
    DequeWithinMax(TimesOf(l.history, source), l.last, l.sourceWindow as real, l.sourceMax);
  }

  /**
   A limiter whose global limit denies: if nothing else is admitted, the limit is clear again after the
   advised wait exactly when the advice suffices, so always on a clock of whole milliseconds.
   */
  lemma {:induction false} GlobalDenialClears(l: LoginRequestLimiter)
    requires l.Valid() && |l.globalAttempts| >= l.globalMax
    ensures |l.globalAttempts| == l.globalMax
    ensures var wait := RetryAfter(l.globalAttempts, l.last, l.globalMax, l.globalWindow);
            RoomAt(Times(l.history), l.last + wait as real, l.globalWindow as real, l.globalMax)
            <==> AdviceSuffices(Left(l.globalAttempts[0], l.last, l.globalWindow))
    ensures OnMillisecond(l.last) && AllOnMillisecond(Times(l.history)) ==>
              AdviceSuffices(Left(l.globalAttempts[0], l.last, l.globalWindow))
  {
    DenialClears(Times(l.history), l.globalAttempts, l.last, l.globalMax, l.globalWindow);
  }

  /** The same for a source's own limit. */
  lemma {:induction false} SourceDenialClears(l: LoginRequestLimiter, source: string)
    requires l.Valid() && source in l.sourceAttempts && |l.sourceAttempts[source]| >= l.sourceMax
    ensures |l.sourceAttempts[source]| == l.sourceMax
    ensures var wait := RetryAfter(l.sourceAttempts[source], l.last, l.sourceMax, l.sourceWindow);
            RoomAt(TimesOf(l.history, source), l.last + wait as real, l.sourceWindow as real, l.sourceMax)
            <==> AdviceSuffices(Left(l.sourceAttempts[source][0], l.last, l.sourceWindow))
    ensures OnMillisecond(l.last) && AllOnMillisecond(TimesOf(l.history, source)) ==>
              AdviceSuffices(Left(l.sourceAttempts[source][0], l.last, l.sourceWindow))
  {
    assert SourceOk(l.history, l.sourceAttempts, source, l.last, l.sourceWindow, l.sourceMax);
    DenialClears(TimesOf(l.history, source), l.sourceAttempts[source], l.last, l.sourceMax, l.sourceWindow);
  }

  /** At every moment of every run: no window, global or per source, holds more than its maximum, and no deque is empty. */
  lemma LimitsHoldInEveryWindow(l: LoginRequestLimiter, t: real, source: string)
    requires l.Valid()
    ensures InWindow(Times(l.history), t, l.globalWindow as real) <= l.globalMax
    ensures InWindow(TimesOf(l.history, source), t, l.sourceWindow as real) <= l.sourceMax
    ensures source in l.sourceAttempts ==> l.sourceAttempts[source] != []
  {
    assert SourceOk(l.history, l.sourceAttempts, source, l.last, l.sourceWindow, l.sourceMax);
    NoWindowOverflows(Times(l.history), l.globalWindow as real, l.globalMax, t);
    NoWindowOverflows(TimesOf(l.history, source), l.sourceWindow as real, l.sourceMax, t);
  }
}
