/** The fixed-window rate limiter (RateLimiter in backend/app/infra/redis.py): counters in Redis, one per window and key, and
the per-process fallback.  Times are in seconds. */
module RateLimit {
  import opened Common

  function Cap(limit: int): nat { if limit < 0 then 0 else limit }

  /** How many more hits a counter that stands at n lets through. */
  function Room(n: nat, limit: int): nat { if n >= Cap(limit) then 0 else Cap(limit) - n }

  // ---------------------------------------------------------------- the local fallback

  /** The window of one key: when it began and how many hits it has had. */
  datatype Window = Window(start: real, n: nat)

  /** The window of a key that was never hit. */
  const FRESH := Window(0.0, 0)

  function LocalHit(w: Window, t: real, length: real): Window {
    if t - w.start > length then Window(t, 1) else Window(w.start, w.n + 1)
  }

  predicate Within(t: real, lo: real, length: real) { lo <= t <= lo + length }

  /** How many of the hits are let through between lo and lo + length. */
  function LocalAllowed(w: Window, hits: seq<real>, limit: int, length: real, lo: real): nat
    decreases hits
  {
    if hits == [] then 0
    else
      var w' := LocalHit(w, hits[0], length);
      (if w'.n <= limit && Within(hits[0], lo, length) then 1 else 0) + LocalAllowed(w', hits[1..], limit, length, lo)
  }

  ghost predicate InTime(hits: seq<real>) {
    forall i, j :: 0 <= i < j < |hits| ==> hits[i] <= hits[j]
  }

  lemma TailInTime(hits: seq<real>)
    requires InTime(hits) && hits != []
    ensures InTime(hits[1..]) && forall t :: t in hits[1..] ==> hits[0] <= t
  {
  }

  /** A window that began inside the interval outlasts it. */
  lemma {:induction false} OneWindow(w: Window, hits: seq<real>, limit: int, length: real, lo: real)
    requires lo <= w.start && (forall t :: t in hits ==> w.start <= t) && InTime(hits)
    ensures LocalAllowed(w, hits, limit, length, lo) <= Room(w.n, limit)
    decreases hits
  {
    if hits != [] {
      TailInTime(hits);
      assert hits[0] in hits;
      var w' := LocalHit(w, hits[0], length);
      if hits[0] - w.start > length {
        NoneWithin(w', hits[1..], limit, length, lo);
      } else {
        OneWindow(w', hits[1..], limit, length, lo);
      }
    }
  }

  lemma {:induction false} NoneWithin(w: Window, hits: seq<real>, limit: int, length: real, lo: real)
    requires forall t :: t in hits ==> t > lo + length
    ensures LocalAllowed(w, hits, limit, length, lo) == 0
    decreases hits
  {
    if hits != [] {
      assert hits[0] in hits && forall t :: t in hits[1..] ==> t in hits;
      NoneWithin(LocalHit(w, hits[0], length), hits[1..], limit, length, lo);
    }
  }

  /** Inside the interval: what is left of the window under way, and one more. */
  lemma {:induction false} TwoWindows(w: Window, hits: seq<real>, limit: int, length: real, lo: real)
    requires (forall t :: t in hits ==> lo <= t) && InTime(hits) && length >= 0.0
    ensures LocalAllowed(w, hits, limit, length, lo) <= Room(w.n, limit) + Cap(limit)
    decreases hits
  {
    if hits != [] {
      TailInTime(hits);
      assert hits[0] in hits;
      var w' := LocalHit(w, hits[0], length);
      if hits[0] - w.start > length {
        OneWindow(w', hits[1..], limit, length, lo);
      } else {
        TwoWindows(w', hits[1..], limit, length, lo);
      }
    }
  }

  /** The fallback lets through at most twice the limit in any interval as long as the window; one less, once the window of
      the key has had a hit. */
  lemma {:induction false} LocalBound(w: Window, hits: seq<real>, limit: int, length: real, lo: real)
    requires InTime(hits) && length >= 0.0
    ensures LocalAllowed(w, hits, limit, length, lo) <= 2 * Cap(limit)
    ensures w.n > 0 && limit > 0 ==> LocalAllowed(w, hits, limit, length, lo) <= 2 * limit - 1
    decreases hits
  {
    if hits != [] {
      TailInTime(hits);
      if hits[0] < lo {
        LocalBound(LocalHit(w, hits[0], length), hits[1..], limit, length, lo);
      } else {
        assert forall t :: t in hits ==> t == hits[0] || t in hits[1..];
        TwoWindows(w, hits, limit, length, lo);
      }
    }
  }

  /** With a clock that is past its first window, as any Unix time is, the fallback stays below twice the limit. */
  lemma LocalBoundInPractice(hits: seq<real>, limit: int, length: real, lo: real)
    requires InTime(hits) && length >= 0.0 && limit > 0
    requires hits != [] ==> hits[0] > length
    ensures LocalAllowed(FRESH, hits, limit, length, lo) <= 2 * limit - 1
  {
    if hits != [] {
      TailInTime(hits);
      var w' := LocalHit(FRESH, hits[0], length);
      LocalBound(w', hits[1..], limit, length, lo);
      if Within(hits[0], lo, length) {
        OneWindow(w', hits[1..], limit, length, lo);
      }
    }
  }

  /** As many hits as the counter has room for are let through; ... */
  lemma {:induction false} RoomIsUsed(w: Window, hits: seq<real>, limit: int, length: real, lo: real)
    requires w.n + |hits| <= limit && forall t :: t in hits ==> Within(t, lo, length)
    ensures LocalAllowed(w, hits, limit, length, lo) == |hits|
    decreases hits
  {
    if hits != [] {
      assert hits[0] in hits && forall t :: t in hits[1..] ==> t in hits;
      RoomIsUsed(LocalHit(w, hits[0], length), hits[1..], limit, length, lo);
    }
  }

  /** ... so once the window has passed, however full it was, the limit can be used again. */
  lemma FallbackRecovers(w: Window, hits: seq<real>, limit: int, length: real, lo: real)
    requires hits != [] && |hits| <= limit && hits[0] - w.start > length
    requires forall t :: t in hits ==> Within(t, lo, length)
    ensures LocalAllowed(w, hits, limit, length, lo) == |hits|
  {
    assert hits[0] in hits && forall t :: t in hits[1..] ==> t in hits;
    RoomIsUsed(Window(hits[0], 1), hits[1..], limit, length, lo);
  }

  // ---------------------------------------------------------------- Redis

  /** One counter per window.  It is meant to expire a second after a whole window from its first hit; None: it never does. */
  datatype Counter = Counter(n: nat, expires: Option<real>)

  /** What becomes of one Redis command: it is done and answered, done but the answer is lost, or not done. */
  datatype Reply = Done | Lost | Refused

  /** One hit at the time t, and what Redis makes of its two commands. */
  datatype Attempt = Attempt(t: real, incr: Reply, expire: Reply)

  function Bucket(t: real, length: real): int
    requires length > 0.0
  {
    (t / length).Floor
  }

  function Reading(counters: map<int, Counter>, b: int, t: real): nat {
    if b in counters && (counters[b].expires.None? || t < counters[b].expires.value) then counters[b].n else 0
  }

  /** Redis answers the hit: it counts it, and sets the expiry of a new counter. */
  predicate Served(counters: map<int, Counter>, a: Attempt, length: real)
    requires length > 0.0
  {
    a.incr == Done && (a.expire == Done || Reading(counters, Bucket(a.t, length), a.t) != 0)
  }

  /** The counters after a hit, served or not. */
  function RedisHit(counters: map<int, Counter>, a: Attempt, length: real): map<int, Counter>
    requires length > 0.0
  {
    if a.incr == Refused then counters
    else
      var b := Bucket(a.t, length);
      var n := Reading(counters, b, a.t) + 1;
      var first := if a.incr == Done && a.expire != Refused then Some(a.t + length + 1.0) else None;
      counters[b := Counter(n, if n == 1 then first else counters[b].expires)]
  }

  predicate LetThrough(counters: map<int, Counter>, a: Attempt, limit: int, length: real)
    requires length > 0.0
  {
    Reading(counters, Bucket(a.t, length), a.t) + 1 <= limit
  }

  /** How many of the hits Redis lets through between lo and lo + length. */
  function RedisAllowed(counters: map<int, Counter>, hits: seq<Attempt>, limit: int, length: real, lo: real): nat
    requires length > 0.0
    decreases hits
  {
    if hits == [] then 0
    else
      var a := hits[0];
      (if Served(counters, a, length) && LetThrough(counters, a, limit, length) && Within(a.t, lo, length) then 1 else 0)
      + RedisAllowed(RedisHit(counters, a, length), hits[1..], limit, length, lo)
  }

  function Mul(x: real, y: real): real { x * y }

  lemma MulBounds(x: real, low: real, high: real, y: real)
    requires low <= x < high && y > 0.0
    ensures Mul(low, y) <= Mul(x, y) < Mul(high, y)
  {
    assert (x - low) * y >= 0.0;
    assert (high - x) * y > 0.0;
  }

  /** A time lies in its bucket. */
  lemma InBucket(t: real, length: real)
    requires length > 0.0
    ensures var b := Bucket(t, length); Mul(b as real, length) <= t < Mul(b as real, length) + length
  {
    var q := t / length;
    assert q * length == t;
    MulBounds(q, q.Floor as real, (q.Floor + 1) as real, length);
    assert (q.Floor + 1) as real * length == q.Floor as real * length + length;
  }

  /** An interval as long as a window touches two buckets at most. */
  lemma TwoBuckets(t: real, lo: real, length: real)
    requires length > 0.0 && Within(t, lo, length)
    ensures Bucket(t, length) == Bucket(lo, length) || Bucket(t, length) == Bucket(lo, length) + 1
  {
    var q, p := t / length, lo / length;
    assert q * length == t && p * length == lo;
    if q < p { MulBounds(q, q, p, length); }
    if q > p + 1.0 { MulBounds(p + 1.0, p + 1.0, q, length); }
  }

  /** No counter expires while its window lasts. */
  ghost predicate Lasting(counters: map<int, Counter>, length: real) {
    forall b :: b in counters && counters[b].expires.Some? ==> counters[b].expires.value > Mul(b as real, length) + length
  }

  function Count(counters: map<int, Counter>, b: int): nat { if b in counters then counters[b].n else 0 }

  lemma HitCounts(counters: map<int, Counter>, a: Attempt, length: real)
    requires length > 0.0 && Lasting(counters, length)
    ensures var b, counters' := Bucket(a.t, length), RedisHit(counters, a, length);
            && Lasting(counters', length) && Reading(counters, b, a.t) == Count(counters, b)
            && Count(counters', b) == Count(counters, b) + (if a.incr == Refused then 0 else 1)
            && forall c :: c != b ==> Count(counters', c) == Count(counters, c)
  {
    InBucket(a.t, length);
  }

  /** Redis lets through at most what is left of the two buckets that the interval touches. */
  lemma {:induction false} TwoBucketsRoom(counters: map<int, Counter>, hits: seq<Attempt>, limit: int, length: real, lo: real)
    requires length > 0.0 && Lasting(counters, length)
    ensures var b := Bucket(lo, length);
            RedisAllowed(counters, hits, limit, length, lo)
            <= Room(Count(counters, b), limit) + Room(Count(counters, b + 1), limit)
    decreases hits
  {
    if hits != [] {
      HitCounts(counters, hits[0], length);
      if Within(hits[0].t, lo, length) { TwoBuckets(hits[0].t, lo, length); }
      TwoBucketsRoom(RedisHit(counters, hits[0], length), hits[1..], limit, length, lo);
    }
  }

  /** At most twice the limit in any interval as long as the window, in whatever order the hits come and whichever commands
      fail: a hit that is counted but not answered makes no room, and a counter without expiry is not asked again after its
      window. */
  lemma RedisBound(hits: seq<Attempt>, limit: int, length: real, lo: real)
    requires length > 0.0
    ensures RedisAllowed(map[], hits, limit, length, lo) <= 2 * Cap(limit)
  {
    TwoBucketsRoom(map[], hits, limit, length, lo);
  }

  // ---------------------------------------------------------------- Redis and the fallback

  /** How many are let through by Redis or, where it fails, by the fallback. */
  function Allowed(w: Window, counters: map<int, Counter>, hits: seq<Attempt>, limit: int, length: real, lo: real): nat
    requires length > 0.0
    decreases hits
  {
    if hits == [] then 0
    else
      var a := hits[0];
      var served := Served(counters, a, length);
      var w' := if served then w else LocalHit(w, a.t, length);
      var ok := if served then LetThrough(counters, a, limit, length) else w'.n <= limit;
      (if ok && Within(a.t, lo, length) then 1 else 0)
      + Allowed(w', RedisHit(counters, a, length), hits[1..], limit, length, lo)
  }

  /** The times of the hits that fall back. */
  function FallenBack(counters: map<int, Counter>, hits: seq<Attempt>, length: real): seq<real>
    requires length > 0.0
    decreases hits
  {
    if hits == [] then []
    else
      var rest := FallenBack(RedisHit(counters, hits[0], length), hits[1..], length);
      if Served(counters, hits[0], length) then rest else [hits[0].t] + rest
  }

  lemma {:induction false} AllowedSplits(w: Window, counters: map<int, Counter>, hits: seq<Attempt>, limit: int, length: real,
                                         lo: real)
    requires length > 0.0
    ensures Allowed(w, counters, hits, limit, length, lo)
         == RedisAllowed(counters, hits, limit, length, lo)
            + LocalAllowed(w, FallenBack(counters, hits, length), limit, length, lo)
    decreases hits
  {
    if hits != [] {
      var a := hits[0];
      var rest := FallenBack(RedisHit(counters, a, length), hits[1..], length);
      assert ([a.t] + rest)[1..] == rest;
      AllowedSplits(if Served(counters, a, length) then w else LocalHit(w, a.t, length), RedisHit(counters, a, length),
                    hits[1..], limit, length, lo);
    }
  }

  ghost predicate Ascending(hits: seq<Attempt>) {
    forall i, j :: 0 <= i < j < |hits| ==> hits[i].t <= hits[j].t
  }

  lemma {:induction false} FallenBackInTime(counters: map<int, Counter>, hits: seq<Attempt>, length: real)
    requires length > 0.0 && Ascending(hits)
    ensures InTime(FallenBack(counters, hits, length))
    ensures forall t :: t in FallenBack(counters, hits, length) ==> exists i :: 0 <= i < |hits| && hits[i].t == t
    decreases hits
  {
    if hits != [] {
      var rest := FallenBack(RedisHit(counters, hits[0], length), hits[1..], length);
      FallenBackInTime(RedisHit(counters, hits[0], length), hits[1..], length);
      forall t | t in rest ensures exists i :: 0 <= i < |hits| && hits[i].t == t && hits[0].t <= t {
        var i :| 0 <= i < |hits| - 1 && hits[1..][i].t == t;
        assert hits[i + 1].t == t;
      }
      assert forall k :: 0 <= k < |rest| ==> rest[k] in rest;
    }
  }

  /** Whichever commands fail and whenever: the two together let through at most four times the limit. */
  lemma MixedBound(w: Window, hits: seq<Attempt>, limit: int, length: real, lo: real)
    requires length > 0.0 && Ascending(hits)
    ensures Allowed(w, map[], hits, limit, length, lo) <= 4 * Cap(limit)
  {
    AllowedSplits(w, map[], hits, limit, length, lo);
    RedisBound(hits, limit, length, lo);
    FallenBackInTime(map[], hits, length);
    LocalBound(w, FallenBack(map[], hits, length), limit, length, lo);
  }

  // ---------------------------------------------------------------- the bound is reached

  function Repeat(t: real, n: nat): seq<Attempt> { if n == 0 then [] else [Attempt(t, Done, Done)] + Repeat(t, n - 1) }

  /** A burst that fits in its bucket is let through, and the other buckets do not notice. */
  lemma {:induction false} BurstFillsBucket(counters: map<int, Counter>, t: real, n: nat, more: seq<Attempt>, limit: int,
                                            length: real, lo: real)
    returns (after: map<int, Counter>)
    requires length > 0.0 && Lasting(counters, length) && Within(t, lo, length)
    requires Count(counters, Bucket(t, length)) + n <= limit
    ensures Lasting(after, length) && forall c :: c != Bucket(t, length) ==> Count(after, c) == Count(counters, c)
    ensures RedisAllowed(counters, Repeat(t, n) + more, limit, length, lo) == n + RedisAllowed(after, more, limit, length, lo)
    decreases n
  {
    if n == 0 {
      assert Repeat(t, n) + more == more;
      after := counters;
    } else {
      HitCounts(counters, Attempt(t, Done, Done), length);
      assert (Repeat(t, n) + more)[1..] == Repeat(t, n - 1) + more;
      after := BurstFillsBucket(RedisHit(counters, Attempt(t, Done, Done), length), t, n - 1, more, limit, length, lo);
    }
  }

  lemma FirstBuckets(length: real)
    requires length > 0.0
    ensures Bucket(length / 2.0, length) == 0 && Bucket(length, length) == 1
  {
    assert length / 2.0 / length == 0.5;
    assert length / length == 1.0;
  }

  /** The bound is reached: a burst at the end of one window and another at the beginning of the next. */
  lemma RedisBoundIsTight(limit: nat, length: real)
    requires length > 0.0
    ensures RedisAllowed(map[], Repeat(length / 2.0, limit) + Repeat(length, limit), limit, length, length / 2.0) == 2 * limit
  {
    var lo := length / 2.0;
    FirstBuckets(length);
    var counters := BurstFillsBucket(map[], lo, limit, Repeat(length, limit), limit, length, lo);
    var final := BurstFillsBucket(counters, length, limit, [], limit, length, lo);
    assert Repeat(length, limit) + [] == Repeat(length, limit);
  }

  // ---------------------------------------------------------------- the program

  class RateLimiter {
    var windows: map<Key, Window>                       // the fallback of this process
    var counters: map<Key, map<int, Counter>>           // Redis, by key

    constructor ()
      ensures windows == map[] && counters == map[]
    {
      windows, counters := map[], map[];
    }

    function WindowOf(key: Key): Window
      reads this
    {
      if key in windows then windows[key] else FRESH
    }

    function CountersOf(key: Key): map<int, Counter>
      reads this
    {
      if key in counters then counters[key] else map[]
    }

    /** A hit that Redis answers is decided by the window's counter, any other by the fallback, also if Redis has counted it;
        none is let through uncounted, and no other key is touched. */
    method Hit(key: Key, limit: int, length: int, a: Attempt) returns (allowed: bool, left: int)
      requires length > 0
      modifies this
      ensures var before, served := old(CountersOf(key)), Served(old(CountersOf(key)), a, length as real);
              && counters == old(counters)[key := RedisHit(before, a, length as real)]
              && windows == (if served then old(windows)
                             else old(windows)[key := LocalHit(old(WindowOf(key)), a.t, length as real)])
              && allowed == if served then LetThrough(before, a, limit, length as real) else WindowOf(key).n <= limit
      ensures var n := if Served(old(CountersOf(key)), a, length as real)
                       then Reading(old(CountersOf(key)), Bucket(a.t, length as real), a.t) + 1 else WindowOf(key).n;
              left == if n < limit then limit - n else 0
      ensures allowed ==> 0 <= left < limit
      ensures !allowed ==> left == 0
    {
      var before := CountersOf(key);
      var n, served := 0, false;
      counters := counters[key := RedisHit(before, a, length as real)];
      if a.incr == Done {
        n := counters[key][Bucket(a.t, length as real)].n;
        served := n > 1 || a.expire == Done;
      }
      if !served {
        var Window(start, count) := WindowOf(key);
        if a.t - start > length as real { start, count := a.t, 0; }
        n := count + 1;
        windows := windows[key := Window(start, n)];
      }
      allowed := n <= limit;
      left := if limit - n > 0 then limit - n else 0;
    }
  }
}
