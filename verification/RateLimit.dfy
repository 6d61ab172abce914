/** The fixed-window limiter of the public write endpoints. */
module RateLimit {
  import opened Prelude

  datatype Bucket = Bucket(count: int, resetAt: int)

  type Buckets = map<string, Bucket>

  /** One request: its bucket key, the limit of its endpoint, and the clock. */
  datatype Request = Request(key: string, limit: int, at: int)

  /** The buckets after one request, and whether it is let through. */
  function Check(b: Buckets, window: int, r: Request): (Buckets, bool) {
    if r.key !in b || b[r.key].resetAt <= r.at then
      (b[r.key := Bucket(1, r.at + window)], true)
    else
      var c := b[r.key].count + 1;
      (b[r.key := Bucket(c, b[r.key].resetAt)], c <= r.limit)
  }

  class Limiter {
    const windowMs: int
    var buckets: Buckets

    constructor (windowMs: int)
      ensures this.windowMs == windowMs && buckets == map[]
    {
      this.windowMs := windowMs;
      buckets := map[];
    }

    method Admit(key: string, limit: int, now: int) returns (ok: bool)
      modifies this
      ensures (buckets, ok) == Check(old(buckets), windowMs, Request(key, limit, now))
    {
      if key !in buckets || buckets[key].resetAt <= now {
        buckets := buckets[key := Bucket(1, now + windowMs)];
        return true;
      }
      var bucket := buckets[key];
      bucket := bucket.(count := bucket.count + 1);
      buckets := buckets[key := bucket];
      ok := bucket.count <= limit;
    }
  }

  // ---- runs of requests ----

  predicate Clocked(now: int, rs: seq<Request>)
    decreases |rs|
  {
    rs == [] || (now <= rs[0].at && Clocked(rs[0].at, rs[1..]))
  }

  /** How many requests on `key` are let through at times in [lo, hi]. */
  function Passed(b: Buckets, window: int, rs: seq<Request>, key: string, lo: int, hi: int): nat
    decreases |rs|
  {
    if rs == [] then 0
    else
      var (next, ok) := Check(b, window, rs[0]);
      (if ok && rs[0].key == key && lo <= rs[0].at <= hi then 1 else 0) + Passed(next, window, rs[1..], key, lo, hi)
  }

  /** No request on `key` comes with a higher limit. */
  predicate Capped(rs: seq<Request>, key: string, limit: int) {
    forall i :: 0 <= i < |rs| && rs[i].key == key ==> rs[i].limit <= limit
  }

  /** What a bucket can still let through before it resets. */
  function Left(b: Buckets, key: string, m: int): nat {
    if key in b && b[key].count < m then m - b[key].count else 0
  }

  lemma {:induction false} NothingAfter(b: Buckets, window: int, rs: seq<Request>, key: string, lo: int, hi: int, now: int)
    requires Clocked(now, rs) && hi < now
    ensures Passed(b, window, rs, key, lo, hi) == 0
    decreases |rs|
  {
    if rs != [] {
      NothingAfter(Check(b, window, rs[0]).0, window, rs[1..], key, lo, hi, rs[0].at);
    }
  }

  /** Until a bucket resets it lets through no more than it has left. */
  lemma {:induction false} OneWindow(b: Buckets, window: int, rs: seq<Request>, key: string, limit: int, lo: int, hi: int, now: int)
    requires Clocked(now, rs) && Capped(rs, key, limit)
    requires key in b && b[key].count >= 1 && hi < b[key].resetAt
    ensures Passed(b, window, rs, key, lo, hi) <= Left(b, key, Max(1, limit))
    decreases |rs|
  {
    if rs != [] {
      var r, next := rs[0], Check(b, window, rs[0]).0;
      if r.key == key && b[key].resetAt <= r.at {
        NothingAfter(next, window, rs[1..], key, lo, hi, r.at);
      } else {
        OneWindow(next, window, rs[1..], key, limit, lo, hi, r.at);
      }
    }
  }

  /** The most that can still get through in [lo, lo + window], given the key's bucket. */
  function Bound(b: Buckets, key: string, m: nat, lo: int, window: int): nat {
    if key !in b || b[key].resetAt <= lo then 2 * m
    else if b[key].resetAt <= lo + window then Left(b, key, m) + m
    else Left(b, key, m)
  }

  lemma {:induction false} SlidingFrom(b: Buckets, window: int, rs: seq<Request>, key: string, limit: int, lo: int, now: int)
    requires window > 0 && Clocked(now, rs) && Capped(rs, key, limit) && (key in b ==> b[key].count >= 1)
    ensures Passed(b, window, rs, key, lo, lo + window) <= Bound(b, key, Max(1, limit), lo, window)
    decreases |rs|
  {
    if rs != [] {
      var r, next := rs[0], Check(b, window, rs[0]).0;
      if r.key == key && (key !in b || b[key].resetAt <= r.at) && r.at > lo {
        if r.at > lo + window {
          NothingAfter(next, window, rs[1..], key, lo, lo + window, r.at);
        } else {
          OneWindow(next, window, rs[1..], key, limit, lo, lo + window, r.at);
        }
      } else {
        SlidingFrom(next, window, rs[1..], key, limit, lo, r.at);
      }
    }
  }

  /**
   For every sequence of requests under a clock that does not run backwards: in
   any closed interval as long as the window, at most twice max(1, limit)
   requests of one key get through.
   */
  lemma SlidingBound(window: int, rs: seq<Request>, key: string, limit: int, lo: int, now: int)
    requires window > 0 && Clocked(now, rs) && Capped(rs, key, limit)
    ensures Passed(map[], window, rs, key, lo, lo + window) <= 2 * Max(1, limit)
  {
    SlidingFrom(map[], window, rs, key, limit, lo, now);
  }

  /** Within one window, that is from a request that opens it until it resets, at most max(1, limit) get through. */
  lemma WindowBound(b: Buckets, window: int, rs: seq<Request>, key: string, limit: int, now: int)
    requires window > 0 && rs != [] && Clocked(now, rs) && Capped(rs, key, limit)
    requires rs[0].key == key && (key !in b || b[key].resetAt <= rs[0].at)
    ensures Passed(b, window, rs, key, rs[0].at, rs[0].at + window - 1) <= Max(1, limit)
  {
    OneWindow(Check(b, window, rs[0]).0, window, rs[1..], key, limit, rs[0].at, rs[0].at + window - 1, rs[0].at);
  }

  /** Only the requests on `key`. */
  function Only(rs: seq<Request>, key: string): seq<Request>
    decreases |rs|
  {
    if rs == [] then [] else (if rs[0].key == key then [rs[0]] else []) + Only(rs[1..], key)
  }

  predicate SameBucket(a: Buckets, b: Buckets, key: string) {
    (key in a <==> key in b) && (key in a ==> a[key] == b[key])
  }

  /** Keys do not affect each other: dropping all other requests changes nothing for this one. */
  lemma {:induction false} KeysAreIndependent(a: Buckets, b: Buckets, window: int, rs: seq<Request>, key: string, lo: int, hi: int)
    requires SameBucket(a, b, key)
    ensures Passed(a, window, rs, key, lo, hi) == Passed(b, window, Only(rs, key), key, lo, hi)
    decreases |rs|
  {
    if rs != [] {
      var next := Check(a, window, rs[0]).0;
      if rs[0].key == key {
        KeysAreIndependent(next, Check(b, window, rs[0]).0, window, rs[1..], key, lo, hi);
        var only := Only(rs, key);
        assert only[0] == rs[0] && only[1..] == Only(rs[1..], key);
      } else {
        KeysAreIndependent(next, b, window, rs[1..], key, lo, hi);
        assert Only(rs, key) == Only(rs[1..], key);
      }
    }
  }

  // ---- the bound is reached, and needs a positive window ----

  function Burst(key: string, limit: int, at: int, n: nat): seq<Request> {
    if n == 0 then [] else [Request(key, limit, at)] + Burst(key, limit, at, n - 1)
  }

  lemma {:induction false} BurstPasses(b: Buckets, window: int, key: string, limit: nat, at: int, n: nat, rest: seq<Request>, lo: int, hi: int)
    requires key in b && b[key].count + n <= limit && at < b[key].resetAt && lo <= at <= hi
    ensures Passed(b, window, Burst(key, limit, at, n) + rest, key, lo, hi)
            == n + Passed(b[key := Bucket(b[key].count + n, b[key].resetAt)], window, rest, key, lo, hi)
    decreases n
  {
    var rs := Burst(key, limit, at, n) + rest;
    if n == 0 {
      assert rs == rest && b[key := b[key]] == b;
    } else {
      var next := Check(b, window, rs[0]).0;
      assert rs[1..] == Burst(key, limit, at, n - 1) + rest;
      BurstPasses(next, window, key, limit, at, n - 1, rest, lo, hi);
      assert next[key := Bucket(b[key].count + n, b[key].resetAt)] == b[key := Bucket(b[key].count + n, b[key].resetAt)];
    }
  }

  /** A full burst as a window opens: all of it gets through. */
  lemma OpeningBurst(b: Buckets, window: int, key: string, limit: nat, at: int, rest: seq<Request>, lo: int, hi: int)
    requires window > 0 && limit >= 1 && (key in b ==> b[key].resetAt <= at) && lo <= at <= hi
    ensures Passed(b, window, Burst(key, limit, at, limit) + rest, key, lo, hi)
            == limit + Passed(b[key := Bucket(limit, at + window)], window, rest, key, lo, hi)
  {
    var rs := Burst(key, limit, at, limit) + rest;
    var next := Check(b, window, rs[0]).0;
    assert rs[1..] == Burst(key, limit, at, limit - 1) + rest;
    BurstPasses(next, window, key, limit, at, limit - 1, rest, lo, hi);
    assert next[key := Bucket(limit, at + window)] == b[key := Bucket(limit, at + window)];
  }

  /** Two bursts, one as a window opens and one as it resets, reach the bound. */
  lemma BoundIsReached(window: int, key: string, limit: nat, at: int)
    requires window > 0 && limit >= 1
    ensures Passed(map[], window, Burst(key, limit, at, limit) + Burst(key, limit, at + window, limit), key, at, at + window)
            == 2 * limit
  {
    var late := Burst(key, limit, at + window, limit);
    OpeningBurst(map[], window, key, limit, at, late, at, at + window);
    var b := map[key := Bucket(limit, at + window)];
    assert late + [] == late;
    OpeningBurst(b, window, key, limit, at + window, [], at, at + window);
  }

  /** How many requests on `key` there are at times in [lo, hi]. */
  function Made(rs: seq<Request>, key: string, lo: int, hi: int): nat {
    if rs == [] then 0 else (if rs[0].key == key && lo <= rs[0].at <= hi then 1 else 0) + Made(rs[1..], key, lo, hi)
  }

  /** No bucket lasts beyond `now`. */
  predicate AllReset(b: Buckets, now: int) { forall key :: key in b ==> b[key].resetAt <= now }

  /** Without a positive window length every request gets through, whatever the keys, limits and times. */
  lemma {:induction false} NoWindowNoLimit(b: Buckets, window: int, rs: seq<Request>, key: string, lo: int, hi: int, now: int)
    requires window <= 0 && AllReset(b, now) && Clocked(now, rs)
    ensures Passed(b, window, rs, key, lo, hi) == Made(rs, key, lo, hi)
    decreases |rs|
  {
    if rs != [] {
      var (next, ok) := Check(b, window, rs[0]);
      assert ok && AllReset(next, rs[0].at);
      NoWindowNoLimit(next, window, rs[1..], key, lo, hi, rs[0].at);
    }
  }
}
