/**
 The fixed-window rate limiter over an expiring store.

 Times are real numbers; the store serves a record while its expiry lies after the time of the read,
 and each hit reads the clock once.
 */
module RateLimiter {
  import opened Arithmetic
  import opened Options

  datatype Record = Record(count: int, resetAt: real, expireAt: real)

  predicate Live(r: Option<Record>, now: real) {
    r.Some? && r.value.expireAt > now
  }

  function NewWindow(windowSeconds: int, now: real): Record {
    Record(1, now + windowSeconds as real, now + windowSeconds as real)
  }

  /** Whole seconds left of a window, at least one. */
  function SecondsLeft(r: Record, now: real): int {
    Max(1, (r.resetAt - now).Floor)
  }

  predicate OpensWindow(r: Option<Record>, now: real) {
    !Live(r, now) || r.value.resetAt <= now
  }

  /** One hit: the record it leaves, and the seconds to wait if it is refused. */
  function HitOn(r: Option<Record>, limit: int, windowSeconds: int, now: real): (Record, Option<int>) {
    if OpensWindow(r, now) then (NewWindow(windowSeconds, now), None)
    else if r.value.count >= limit then (r.value, Some(SecondsLeft(r.value, now)))
    else (Record(r.value.count + 1, r.value.resetAt, now + SecondsLeft(r.value, now) as real), None)
  }

  class AuthRateLimiter {
    var cache: map<(string, string), Record>

    constructor ()
      ensures cache == map[]
    {
      cache := map[];
    }

    function Stored(bucket: string, key: string): Option<Record>
      reads this
    {
      if (bucket, key) in cache then Some(cache[(bucket, key)]) else None
    }

    /** Records a hit; answers the seconds to wait when it is over the limit. */
    method Hit(bucket: string, key: string, limit: int, windowSeconds: int, now: real) returns (retryAfter: Option<int>)
      modifies this
      ensures limit <= 0 || windowSeconds <= 0 ==> retryAfter.None? && cache == old(cache)
      ensures limit > 0 && windowSeconds > 0 ==>
                var hit := HitOn(old(Stored(bucket, key)), limit, windowSeconds, now);
                retryAfter == hit.1 && cache == old(cache)[(bucket, key) := hit.0]
    {
      if limit <= 0 || windowSeconds <= 0 {
        return None;
      }
      var cacheKey := (bucket, key);
      if cacheKey !in cache || cache[cacheKey].expireAt <= now {
        var resetAt := now + windowSeconds as real;
        cache := cache[cacheKey := Record(1, resetAt, now + windowSeconds as real)];
        return None;
      }
      var existing := cache[cacheKey];
      if existing.resetAt <= now {
        var resetAt := now + windowSeconds as real;
        cache := cache[cacheKey := Record(1, resetAt, now + windowSeconds as real)];
        return None;
      }
      var left := (existing.resetAt - now).Floor;
      if existing.count >= limit {
        assert cache[cacheKey := existing] == cache;
        return Some(if left > 1 then left else 1);
      }
      var expire := if left > 1 then left else 1;
      cache := cache[cacheKey := Record(existing.count + 1, existing.resetAt, now + expire as real)];
      return None;
    }
  }

  // ----- the hits of one bucket and key, over time -----

  datatype Admitted = Admitted(time: real, window: nat)

  /** The stored record, when each window opened, and what was admitted in which window. */
  datatype History = History(record: Option<Record>, starts: seq<real>, admitted: seq<Admitted>)

  predicate Ascending(times: seq<real>) {
    forall i, j :: 0 <= i < j < |times| ==> times[i] <= times[j]
  }

  function Extended(h: History, limit: int, windowSeconds: int, now: real): History {
    var hit := HitOn(h.record, limit, windowSeconds, now);
    if OpensWindow(h.record, now) then History(Some(hit.0), h.starts + [now], h.admitted + [Admitted(now, |h.starts|)])
    else if hit.1.Some? then h.(record := Some(hit.0))
    else History(Some(hit.0), h.starts, h.admitted + [Admitted(now, Max(0, |h.starts| - 1))])
  }

  function After(hits: seq<real>, limit: int, windowSeconds: int): History {
    if hits == [] then History(None, [], [])
    else Extended(After(hits[..|hits| - 1], limit, windowSeconds), limit, windowSeconds, hits[|hits| - 1])
  }

  function CountIn(admitted: seq<Admitted>, window: int): nat {
    if admitted == [] then 0
    else CountIn(admitted[..|admitted| - 1], window) + if admitted[|admitted| - 1].window == window then 1 else 0
  }

  function CountDuring(admitted: seq<Admitted>, from: real, to: real): nat {
    if admitted == [] then 0
    else
      CountDuring(admitted[..|admitted| - 1], from, to) + if from <= admitted[|admitted| - 1].time <= to then 1 else 0
  }

  ghost predicate Spaced(starts: seq<real>, windowSeconds: int) {
    forall i, j :: 0 <= i < j < |starts| ==> starts[j] - starts[i] > windowSeconds as real - 1.0
  }

  ghost predicate InWindows(h: History, now: real) {
    && Ascending(h.starts)
    && (forall s :: s in h.starts ==> s <= now)
    && (forall a :: a in h.admitted ==> a.window < |h.starts| && h.starts[a.window] <= a.time <= now)
    && (forall a :: a in h.admitted && a.window + 1 < |h.starts| ==> a.time <= h.starts[a.window + 1])
  }

  /** The record is the last window's: it counts what the window admitted, and expires less than a
      second early. */
  ghost predicate Tracks(h: History, windowSeconds: int) {
    && (h.record.None? <==> h.starts == [])
    && (h.record.Some? ==>
          && h.record.value.resetAt == h.starts[|h.starts| - 1] + windowSeconds as real
          && h.record.value.expireAt > h.record.value.resetAt - 1.0
          && h.record.value.count == CountIn(h.admitted, |h.starts| - 1))
  }

  ghost predicate Limited(h: History, limit: int) {
    && (forall w: int :: CountIn(h.admitted, w) <= limit)
    && (forall w: int :: w >= |h.starts| ==> CountIn(h.admitted, w) == 0)
  }

  ghost predicate Kept(h: History, limit: int, windowSeconds: int, now: real) {
    Spaced(h.starts, windowSeconds) && InWindows(h, now) && Tracks(h, windowSeconds) && Limited(h, limit)
  }

  lemma LaterWindowIsSpaced(h: History, limit: int, windowSeconds: int, earlier: real, now: real)
    requires windowSeconds >= 1 && limit >= 1 && earlier <= now && Kept(h, limit, windowSeconds, earlier)
    requires OpensWindow(h.record, now)
    ensures Spaced(h.starts + [now], windowSeconds)
  {
    forall i | 0 <= i < |h.starts| ensures now - h.starts[i] > windowSeconds as real - 1.0 {
      var last := h.starts[|h.starts| - 1];
      assert h.starts[i] <= last;
    }
  }

  lemma CountExtends(admitted: seq<Admitted>, a: Admitted)
    ensures forall w: int :: CountIn(admitted + [a], w) == CountIn(admitted, w) + if a.window == w then 1 else 0
  {
    assert (admitted + [a])[..|admitted|] == admitted;
  }

  lemma OpeningIsKept(h: History, limit: int, windowSeconds: int, earlier: real, now: real)
    requires windowSeconds >= 1 && limit >= 1 && earlier <= now && Kept(h, limit, windowSeconds, earlier)
    requires OpensWindow(h.record, now)
    ensures Kept(Extended(h, limit, windowSeconds, now), limit, windowSeconds, now)
  {
    var h' := Extended(h, limit, windowSeconds, now);
    CountExtends(h.admitted, Admitted(now, |h.starts|));
    LaterWindowIsSpaced(h, limit, windowSeconds, earlier, now);
    assert h'.starts == h.starts + [now] && h'.admitted == h.admitted + [Admitted(now, |h.starts|)];
    assert forall i :: 0 <= i < |h.starts| ==> h.starts[i] in h.starts;
    assert InWindows(h', now);
  }

  lemma CountingIsKept(h: History, limit: int, windowSeconds: int, earlier: real, now: real)
    requires windowSeconds >= 1 && limit >= 1 && earlier <= now && Kept(h, limit, windowSeconds, earlier)
    requires !OpensWindow(h.record, now) && h.record.value.count < limit
    ensures Kept(Extended(h, limit, windowSeconds, now), limit, windowSeconds, now)
  {
    var record, a := h.record.value, Admitted(now, |h.starts| - 1);
    var expireAt := now + SecondsLeft(record, now) as real;
    assert Extended(h, limit, windowSeconds, now)
        == History(Some(Record(record.count + 1, record.resetAt, expireAt)), h.starts, h.admitted + [a]);
    CountedInWindows(h, earlier, now);
    CountedIsLimited(h, limit, a);
    CountExtends(h.admitted, a);
    assert expireAt > record.resetAt - 1.0;
  }

  lemma CountedIsLimited(h: History, limit: int, a: Admitted)
    requires Limited(h, limit) && a.window < |h.starts| && CountIn(h.admitted, a.window) < limit
    ensures Limited(History(h.record, h.starts, h.admitted + [a]), limit)
  {
    CountExtends(h.admitted, a);
  }

  lemma CountedInWindows(h: History, earlier: real, now: real)
    requires InWindows(h, earlier) && earlier <= now && h.starts != []
    ensures InWindows(History(h.record, h.starts, h.admitted + [Admitted(now, |h.starts| - 1)]), now)
  {
    assert h.starts[|h.starts| - 1] in h.starts;
  }

  lemma ExtendedIsKept(h: History, limit: int, windowSeconds: int, earlier: real, now: real)
    requires windowSeconds >= 1 && limit >= 1 && earlier <= now && Kept(h, limit, windowSeconds, earlier)
    ensures Kept(Extended(h, limit, windowSeconds, now), limit, windowSeconds, now)
  {
    if OpensWindow(h.record, now) {
      OpeningIsKept(h, limit, windowSeconds, earlier, now);
    } else if h.record.value.count < limit {
      CountingIsKept(h, limit, windowSeconds, earlier, now);
    } else {
      assert Extended(h, limit, windowSeconds, now) == h;
    }
  }

  lemma {:induction false} HistoryIsKept(hits: seq<real>, limit: int, windowSeconds: int, now: real)
    requires windowSeconds >= 1 && limit >= 1 && Ascending(hits) && forall t :: t in hits ==> t <= now
    ensures Kept(After(hits, limit, windowSeconds), limit, windowSeconds, now)
  {
    if hits != [] {
      var before, last := hits[..|hits| - 1], hits[|hits| - 1];
      assert last in hits;
      forall t | t in before ensures t <= last {
        var i :| 0 <= i < |before| && before[i] == t;
        assert hits[i] == t;
      }
      HistoryIsKept(before, limit, windowSeconds, last);
      ExtendedIsKept(After(before, limit, windowSeconds), limit, windowSeconds, last, last);
    }
  }

  /** Every window lasts more than its length less one second, and admits at most `limit` hits. */
  lemma WindowsAreLongAndLimited(hits: seq<real>, limit: int, windowSeconds: int)
    requires windowSeconds >= 1 && limit >= 1 && Ascending(hits)
    ensures var h := After(hits, limit, windowSeconds);
            Spaced(h.starts, windowSeconds) && forall w: int :: CountIn(h.admitted, w) <= limit
  {
    if hits != [] {
      HistoryIsKept(hits, limit, windowSeconds, hits[|hits| - 1]);
    } else {
      HistoryIsKept(hits, limit, windowSeconds, 0.0);
    }
  }

  /** The number of windows opened before a time. */
  function OpenedBefore(starts: seq<real>, from: real): nat {
    if starts == [] then 0
    else if starts[|starts| - 1] < from then |starts|
    else OpenedBefore(starts[..|starts| - 1], from)
  }

  lemma {:induction false} OpenedBeforeSplits(starts: seq<real>, from: real)
    requires Ascending(starts)
    ensures OpenedBefore(starts, from) <= |starts|
    ensures forall i :: 0 <= i < |starts| ==> (starts[i] < from <==> i < OpenedBefore(starts, from))
  {
    if starts != [] && starts[|starts| - 1] >= from {
      OpenedBeforeSplits(starts[..|starts| - 1], from);
    }
  }

  lemma SpacedPair(starts: seq<real>, windowSeconds: int, i: nat, j: nat)
    requires Spaced(starts, windowSeconds)
    ensures i < j < |starts| ==> starts[j] - starts[i] > windowSeconds as real - 1.0
  {
  }

  /** A hit admitted within less than a window's length of `from` belongs to the window open then, or
      to the next. */
  lemma OnlyTwoWindows(h: History, limit: int, windowSeconds: int, now: real, from: real, to: real, a: Admitted)
    requires Kept(h, limit, windowSeconds, now)
    requires to - from <= windowSeconds as real - 1.0 && a in h.admitted && from <= a.time <= to
    ensures var n := OpenedBefore(h.starts, from); a.window == n - 1 || a.window == n
  {
    OpenedBeforeSplits(h.starts, from);
    var n := OpenedBefore(h.starts, from);
    SpacedPair(h.starts, windowSeconds, n, a.window);
  }

  lemma {:induction false} CountSplits(admitted: seq<Admitted>, from: real, to: real, v: int, w: int)
    requires forall a :: a in admitted && from <= a.time <= to ==> a.window == v || a.window == w
    ensures CountDuring(admitted, from, to) <= CountIn(admitted, v) + CountIn(admitted, w)
  {
    if admitted != [] {
      assert admitted[|admitted| - 1] in admitted;
      assert forall a :: a in admitted[..|admitted| - 1] ==> a in admitted;
      CountSplits(admitted[..|admitted| - 1], from, to, v, w);
    }
  }

  /** Any interval of a window's length less one second admits at most twice the limit. */
  lemma AtMostTwiceTheLimit(hits: seq<real>, limit: int, windowSeconds: int, from: real, to: real)
    requires windowSeconds >= 1 && limit >= 1 && Ascending(hits)
    requires to - from <= windowSeconds as real - 1.0
    ensures CountDuring(After(hits, limit, windowSeconds).admitted, from, to) <= 2 * limit
  {
    var now := if hits == [] then 0.0 else hits[|hits| - 1];
    var h := After(hits, limit, windowSeconds);
    HistoryIsKept(hits, limit, windowSeconds, now);
    forall a | a in h.admitted && from <= a.time <= to
      ensures a.window == OpenedBefore(h.starts, from) - 1 || a.window == OpenedBefore(h.starts, from)
    {
      OnlyTwoWindows(h, limit, windowSeconds, now, from, to, a);
    }
    CountSplits(h.admitted, from, to, OpenedBefore(h.starts, from) - 1, OpenedBefore(h.starts, from));
  }

  /** A hit is refused only when its window is used up; the answer is what is left of that window in
      whole seconds, at least one, and waiting one second more is always enough. */
  lemma RefusalIsEarnedAndShort(hits: seq<real>, limit: int, windowSeconds: int, now: real, later: real)
    requires windowSeconds >= 1 && limit >= 1 && Ascending(hits) && forall t :: t in hits ==> t <= now
    ensures var h := After(hits, limit, windowSeconds);
            var retryAfter := HitOn(h.record, limit, windowSeconds, now).1;
            retryAfter.Some? ==>
              && CountIn(h.admitted, |h.starts| - 1) == limit
              && h.starts != []
              && var left := h.starts[|h.starts| - 1] + windowSeconds as real - now;
              && 1 <= retryAfter.value <= windowSeconds
              && left - 1.0 < retryAfter.value as real && (retryAfter.value > 1 ==> retryAfter.value as real <= left)
              && (later >= now + (retryAfter.value + 1) as real ==>
                  HitOn(h.record, limit, windowSeconds, later).1.None?)
  {
    HistoryIsKept(hits, limit, windowSeconds, now);
    var h := After(hits, limit, windowSeconds);
    if !OpensWindow(h.record, now) {
      assert h.starts[|h.starts| - 1] in h.starts;
      assert h.record.value.resetAt - now <= windowSeconds as real;
    }
  }
}
