/** The rate limit as a property of the whole history of accepted calls. */
module RateWindow {
  predicate Sorted(h: seq<real>) {
    forall i, j :: 0 <= i < j < |h| ==> h[i] <= h[j]
  }

  /** Calls of the history inside the closed window [lo, hi]. */
  function CountWithin(h: seq<real>, lo: real, hi: real): nat {
    if h == [] then 0
    else CountWithin(h[..|h|-1], lo, hi) + (if lo <= h[|h|-1] <= hi then 1 else 0)
  }

  /** Calls of the history in the minute up to `now`. */
  function Recent(h: seq<real>, now: real): nat {
    CountWithin(h, now - 60.0, now)
  }

  /** The closed 60-second window at `start` holds at most `limit` calls. */
  ghost predicate WindowOk(h: seq<real>, limit: int, start: real) {
    CountWithin(h, start, start + 60.0) <= if limit < 0 then 0 else limit
  }

  lemma {:induction false} CountConcat(a: seq<real>, b: seq<real>, lo: real, hi: real)
    ensures CountWithin(a + b, lo, hi) == CountWithin(a, lo, hi) + CountWithin(b, lo, hi)
  {
    if b == [] {
      assert a + b == a;
    } else {
      assert (a + b)[..|a + b| - 1] == a + b[..|b|-1];
      CountConcat(a, b[..|b|-1], lo, hi);
    }
  }

  lemma {:induction false} CountNone(h: seq<real>, lo: real, hi: real)
    requires forall k :: 0 <= k < |h| ==> h[k] < lo
    ensures CountWithin(h, lo, hi) == 0
  {
    if h != [] { CountNone(h[..|h|-1], lo, hi); }
  }

  lemma {:induction false} CountAll(h: seq<real>, lo: real, hi: real)
    requires forall k :: 0 <= k < |h| ==> lo <= h[k] <= hi
    ensures CountWithin(h, lo, hi) == |h|
  {
    if h != [] { CountAll(h[..|h|-1], lo, hi); }
  }

  /** Narrowing the lower bound and widening past the newest call loses nothing. */
  lemma {:induction false} CountNarrower(h: seq<real>, lo: real, hi: real, lo': real, hi': real)
    requires lo' <= lo && forall k :: 0 <= k < |h| ==> h[k] <= hi'
    ensures CountWithin(h, lo, hi) <= CountWithin(h, lo', hi')
  {
    if h != [] { CountNarrower(h[..|h|-1], lo, hi, lo', hi'); }
  }

  /** Dropping what has left the window does not change the count: the sorted suffix is enough. */
  lemma SuffixCounts(h: seq<real>, dropped: nat, now: real)
    requires dropped <= |h|
    requires forall k :: 0 <= k < dropped ==> h[k] < now - 60.0
    requires forall k :: dropped <= k < |h| ==> now - 60.0 <= h[k] <= now
    ensures Recent(h, now) == |h| - dropped
  {
    var lo, hi := now - 60.0, now;
    assert h == h[..dropped] + h[dropped..];
    CountConcat(h[..dropped], h[dropped..], lo, hi);
    CountNone(h[..dropped], lo, hi);
    CountAll(h[dropped..], lo, hi);
  }

  /** A history in which every call was accepted with fewer than `limit` calls in the minute
      before it: the specification of the limiter over its whole history. */
  ghost predicate Admitted(h: seq<real>, limit: int) {
    h == [] || (Admitted(h[..|h|-1], limit) && Recent(h[..|h|-1], h[|h|-1]) < limit)
  }

  lemma AdmitOne(h: seq<real>, limit: int, now: real)
    requires Admitted(h, limit) && Recent(h, now) < limit
    ensures Admitted(h + [now], limit)
  {
    assert (h + [now])[..|h|] == h;
  }

  /** Accepting only below the limit of the trailing minute keeps every window within it,
      wherever the window starts. */
  lemma {:induction false} AdmittedWindowsOk(h: seq<real>, limit: int, start: real)
    requires Sorted(h) && Admitted(h, limit)
    ensures WindowOk(h, limit, start)
  {
    if h != [] {
      var front, now := h[..|h|-1], h[|h|-1];
      AdmittedWindowsOk(front, limit, start);
      if start <= now <= start + 60.0 {
        CountNarrower(front, start, start + 60.0, now - 60.0, now);
      }
    }
  }

  // ---------------------------------------------------------------- the deque

  /** The deque holds the accepted history but for a prefix too old to be seen again. */
  ghost predicate Represents(deque: seq<real>, h: seq<real>, dropped: nat, last: real, limit: int) {
    && Popping(deque, h, dropped, last - 60.0)
    && Sorted(h) && Admitted(h, limit)
    && forall k :: 0 <= k < |h| ==> h[k] <= last
  }

  ghost predicate Popping(deque: seq<real>, h: seq<real>, dropped: nat, start: real) {
    dropped <= |h| && deque == h[dropped..] && forall k :: 0 <= k < dropped ==> h[k] < start
  }

  lemma PopOne(deque: seq<real>, h: seq<real>, dropped: nat, start: real)
    requires Popping(deque, h, dropped, start) && deque != [] && deque[0] < start
    ensures Popping(deque[1..], h, dropped + 1, start)
  {
  }

  /** Once the deque's front is inside the window, its length is the recent count. */
  lemma Settled(deque: seq<real>, h: seq<real>, dropped: nat, last: real, now: real, limit: int)
    requires Sorted(h) && Admitted(h, limit) && (forall k :: 0 <= k < |h| ==> h[k] <= last) && last <= now
    requires Popping(deque, h, dropped, now - 60.0)
    requires deque == [] || now - 60.0 <= deque[0]
    ensures Represents(deque, h, dropped, now, limit) && |deque| == Recent(h, now)
  {
    SuffixCounts(h, dropped, now);
  }

  lemma AcceptOne(deque: seq<real>, h: seq<real>, dropped: nat, now: real, limit: int)
    requires Represents(deque, h, dropped, now, limit) && Recent(h, now) < limit
    ensures Represents(deque + [now], h + [now], dropped, now, limit)
  {
    AdmitOne(h, limit, now);
  }
}
