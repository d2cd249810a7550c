/**
 The hourly "session used" sampler (SOURCE/auth/middleware.py,
 `_should_emit_session_used_audit`).  Ids are already trimmed of blanks.
 */
module AuditSampler {
  import opened Common

  const BUCKET_SECONDS := 3600.0
  const CACHE_MAX := 10000

  function BucketOf(now: real): int { (now / BUCKET_SECONDS).Floor }

  function KeyOf(user: string, session: string): string { user + ":" + session }

  /** The map without the entries of earlier buckets. */
  function WithoutStale(seen: map<string, int>, bucket: int): map<string, int> {
    map k | k in seen && seen[k] >= bucket :: seen[k]
  }

  /** One call on a bounded map: the new map, and whether to emit. */
  function Sample(seen: map<string, int>, key: string, bucket: int): (map<string, int>, bool) {
    if key in seen && seen[key] == bucket then (seen, false)
    else
      var evicted := if |seen| >= CACHE_MAX then WithoutStale(seen, bucket) else seen;
      var cleared := if |evicted| >= CACHE_MAX then map[] else evicted;
      (cleared[key := bucket], true)
  }

  class Sampler {
    var seen: map<string, int>

    constructor ()
      ensures seen == map[]
    {
      seen := map[];
    }

    method ShouldEmit(user: string, session: string, now: real) returns (emit: bool)
      requires |seen| <= CACHE_MAX
      modifies this
      ensures |seen| <= CACHE_MAX
      ensures user == "" || session == "" ==> !emit && seen == old(seen)
      ensures user != "" && session != "" ==> (seen, emit) == Sample(old(seen), KeyOf(user, session), BucketOf(now))
    {
      if user == "" || session == "" { return false; }
      var bucket := (now / BUCKET_SECONDS).Floor;
      var key := user + ":" + session;
      NeverTooBig(seen, key, bucket);
      if key in seen && seen[key] == bucket { return false; }
      if |seen| >= CACHE_MAX {
        EvictStale(bucket);
        if |seen| >= CACHE_MAX { seen := map[]; }
      }
      seen := seen[key := bucket];
      return true;
    }

    /** The stale keys are listed first and then popped one by one. */
    method EvictStale(bucket: int)
      modifies this
      ensures seen == WithoutStale(old(seen), bucket)
    {
      var stale := set k | k in seen && seen[k] < bucket;
      var todo := stale;
      while todo != {}
        invariant todo <= stale && seen == old(seen) - (stale - todo)
        decreases |todo|
      {
        var k :| k in todo;
        todo := todo - {k};
        seen := seen - {k};
      }
    }
  }

  /** A bucket is one hour, from one multiple of 3600 seconds up to the next. */
  lemma BucketsAreHours(now: real, k: int)
    ensures BucketOf(now) == k <==> k as real * 3600.0 <= now < (k + 1) as real * 3600.0
  {
    var q := now / BUCKET_SECONDS;
    assert q * 3600.0 == now;
    assert q.Floor as real <= q < (q.Floor + 1) as real;
    if q.Floor == k {
    } else if q.Floor < k {
      assert (q.Floor + 1) as real <= k as real;
    } else {
      assert (k + 1) as real <= q.Floor as real;
    }
  }

  /** Calls of one bucket are less than an hour apart, later calls never have an earlier bucket. */
  lemma BucketsFollowTime(t1: real, t2: real)
    ensures BucketOf(t1) == BucketOf(t2) ==> -3600.0 < t1 - t2 < 3600.0
    ensures t1 <= t2 ==> BucketOf(t1) <= BucketOf(t2)
    ensures t1 + 3600.0 <= t2 ==> BucketOf(t1) < BucketOf(t2)
  {
    BucketsAreHours(t1, BucketOf(t1));
    BucketsAreHours(t2, BucketOf(t2));
  }

  // --------------------------------------------------------------- bounded size

  lemma OneMoreKey(m: map<string, int>, key: string, bucket: int)
    ensures |m[key := bucket]| <= |m| + 1
  {
    assert m[key := bucket].Keys == m.Keys + {key};
    assert |m[key := bucket]| == |m.Keys + {key}|;
  }

  /** The map never exceeds its maximum, whatever the keys and whichever way the clock goes. */
  lemma NeverTooBig(seen: map<string, int>, key: string, bucket: int)
    requires |seen| <= CACHE_MAX
    ensures |Sample(seen, key, bucket).0| <= CACHE_MAX
  {
    var evicted := if |seen| >= CACHE_MAX then WithoutStale(seen, bucket) else seen;
    var cleared := if |evicted| >= CACHE_MAX then map[] else evicted;
    OneMoreKey(cleared, key, bucket);
  }

  // ------------------------------------------------------ whole runs of calls

  datatype Call = Call(key: string, bucket: int)

  function Run(calls: seq<Call>): map<string, int> {
    if calls == [] then map[]
    else
      var c := calls[|calls| - 1];
      Sample(Run(calls[..|calls| - 1]), c.key, c.bucket).0
  }

  /** The answer to the last call. */
  predicate Emits(calls: seq<Call>)
    requires calls != []
  {
    var c := calls[|calls| - 1];
    Sample(Run(calls[..|calls| - 1]), c.key, c.bucket).1
  }

  predicate Ordered(calls: seq<Call>) { forall i, j :: 0 <= i <= j < |calls| ==> calls[i].bucket <= calls[j].bucket }

  function KeysIn(calls: seq<Call>, bucket: int): set<string> { set c | c in calls && c.bucket == bucket :: c.key }

  /** The map holds nothing but calls that were made. */
  ghost predicate Made(seen: map<string, int>, calls: seq<Call>) {
    forall k :: k in seen ==> Call(k, seen[k]) in calls
  }

  /** The map holds every call of bucket `b`. */
  ghost predicate Full(seen: map<string, int>, calls: seq<Call>, b: int) {
    forall c :: c in calls && c.bucket == b ==> c.key in seen && seen[c.key] == b
  }

  lemma KeysGrow(calls: seq<Call>, more: seq<Call>, b: int)
    ensures KeysIn(calls, b) <= KeysIn(calls + more, b)
    ensures |KeysIn(calls, b)| <= |KeysIn(calls + more, b)|
  {
    forall k | k in KeysIn(calls, b) ensures k in KeysIn(calls + more, b) {
      assert Call(k, b) in calls && Call(k, b) in calls + more;
    }
    SubsetSize(KeysIn(calls, b), KeysIn(calls + more, b));
  }

  lemma NoLaterCalls(calls: seq<Call>, c: Call)
    requires Ordered(calls + [c])
    ensures forall d :: d in calls ==> d.bucket <= c.bucket
  {
    forall d | d in calls ensures d.bucket <= c.bucket {
      var i :| 0 <= i < |calls| && calls[i] == d;
      assert (calls + [c])[i] == d && (calls + [c])[|calls|] == c;
    }
  }

  /** After the stale entries are gone there is room for one more key of the bucket. */
  lemma RoomForOneMore(seen: map<string, int>, calls: seq<Call>, c: Call)
    requires Made(seen, calls) && Ordered(calls + [c]) && c !in calls && |KeysIn(calls + [c], c.bucket)| <= CACHE_MAX
    ensures |WithoutStale(seen, c.bucket)| < CACHE_MAX
  {
    var kept := WithoutStale(seen, c.bucket);
    var all := KeysIn(calls + [c], c.bucket);
    NoLaterCalls(calls, c);
    forall k | k in kept ensures k in all && k != c.key {
      assert Call(k, seen[k]) in calls && Call(k, seen[k]) in calls + [c];
    }
    assert c in calls + [c];
    assert kept.Keys <= all - {c.key};
    SubsetSize(kept.Keys, all - {c.key});
    assert |kept| == |kept.Keys|;
  }

  lemma OneCall(seen: map<string, int>, calls: seq<Call>, c: Call)
    requires Made(seen, calls) && Ordered(calls + [c]) && Full(seen, calls, c.bucket)
    requires |KeysIn(calls + [c], c.bucket)| <= CACHE_MAX
    ensures var (next, emit) := Sample(seen, c.key, c.bucket);
            (emit <==> c !in calls) && Full(next, calls + [c], c.bucket)
  {
    NoLaterCalls(calls, c);
    if c in calls {
      assert c.key in seen && seen[c.key] == c.bucket;
    } else {
      assert c.key in seen ==> seen[c.key] != c.bucket;
      RoomForOneMore(seen, calls, c);
    }
  }

  lemma {:induction false} RunMade(calls: seq<Call>)
    ensures Made(Run(calls), calls)
    decreases |calls|
  {
    if calls != [] {
      var front, c := calls[..|calls| - 1], calls[|calls| - 1];
      assert calls == front + [c];
      RunMade(front);
    }
  }

  /** Nothing of the latest bucket is forgotten while its keys fit, however crowded earlier ones were. */
  lemma {:induction false} RunFull(calls: seq<Call>, b: int)
    requires Ordered(calls) && |KeysIn(calls, b)| <= CACHE_MAX && forall c :: c in calls ==> c.bucket <= b
    ensures Full(Run(calls), calls, b)
    decreases |calls|
  {
    if calls != [] {
      var front, c := calls[..|calls| - 1], calls[|calls| - 1];
      assert calls == front + [c];
      KeysGrow(front, [c], b);
      RunFull(front, b);
      if c.bucket == b {
        RunMade(front);
        OneCall(Run(front), front, c);
      } else {
        NoLaterCalls(front, c);
      }
    }
  }

  /**
   With time that does not go back and at most CACHE_MAX keys so far in its hour, a
   call is answered as an unbounded memory would: True exactly the first time.
   */
  lemma AgreesWithUnboundedMemory(calls: seq<Call>, i: nat)
    requires Ordered(calls) && i < |calls| && |KeysIn(calls[..i + 1], calls[i].bucket)| <= CACHE_MAX
    ensures Emits(calls[..i + 1]) <==> forall j :: 0 <= j < i ==> calls[j] != calls[i]
  {
    var front, c := calls[..i], calls[i];
    assert calls[..i + 1] == front + [c] && calls[..i + 1][..i] == front;
    KeysGrow(front, [c], c.bucket);
    NoLaterCalls(front, c);
    RunMade(front);
    RunFull(front, c.bucket);
    OneCall(Run(front), front, c);
    assert c in front <==> exists j :: 0 <= j < i && calls[j] == c;
  }

  // ------------------------------------------------------------ the bound is exact

  lemma {:induction false} RunBounded(calls: seq<Call>)
    ensures |Run(calls)| <= CACHE_MAX
    decreases |calls|
  {
    if calls != [] {
      var front, c := calls[..|calls| - 1], calls[|calls| - 1];
      RunBounded(front);
      NeverTooBig(Run(front), c.key, c.bucket);
    }
  }

  lemma AskedAgain(calls: seq<Call>, d: Call)
    ensures Emits(calls + [d]) <==> !(d.key in Run(calls) && Run(calls)[d.key] == d.bucket)
  {
    assert (calls + [d])[..|calls + [d]| - 1] == calls;
  }

  lemma SomeKeyIsForgotten(calls: seq<Call>, b: int) returns (d: Call)
    requires |KeysIn(calls, b)| > CACHE_MAX
    ensures d in calls && d.bucket == b && Emits(calls + [d])
  {
    RunBounded(calls);
    var seen := Run(calls);
    assert |seen.Keys| == |seen|;
    if KeysIn(calls, b) <= seen.Keys { SubsetSize(KeysIn(calls, b), seen.Keys); }
    var k :| k in KeysIn(calls, b) && k !in seen.Keys;
    d := Call(k, b);
    AskedAgain(calls, d);
  }

  /**
   After any run of calls in order of time: none of the current hour's sessions would be
   reported a second time if and only if the hour's keys fit the maximum.
   */
  lemma NothingForgottenExactlyWhen(calls: seq<Call>)
    requires Ordered(calls) && calls != []
    ensures var b := calls[|calls| - 1].bucket;
            |KeysIn(calls, b)| <= CACHE_MAX <==> forall d :: d in calls && d.bucket == b ==> !Emits(calls + [d])
  {
    var c := calls[|calls| - 1];
    assert calls == calls[..|calls| - 1] + [c];
    NoLaterCalls(calls[..|calls| - 1], c);
    if |KeysIn(calls, c.bucket)| <= CACHE_MAX {
      RunFull(calls, c.bucket);
      forall d | d in calls && d.bucket == c.bucket ensures !Emits(calls + [d]) { AskedAgain(calls, d); }
    } else {
      var d := SomeKeyIsForgotten(calls, c.bucket);
    }
  }

  function Name(i: nat): string { seq(i, _ => 'a') }

  /** `n` sessions, one call each, in bucket `b`. */
  function Crowd(n: nat, b: int): seq<Call> { if n == 0 then [] else Crowd(n - 1, b) + [Call(Name(n - 1), b)] }

  lemma {:induction false} CrowdCounts(n: nat, b: int)
    ensures |KeysIn(Crowd(n, b), b)| == n && Ordered(Crowd(n, b))
    ensures forall c :: c in Crowd(n, b) ==> c.bucket == b && |c.key| < n
  {
    if n > 0 {
      CrowdCounts(n - 1, b);
      var front, c := Crowd(n - 1, b), Call(Name(n - 1), b);
      forall k ensures k in KeysIn(front + [c], b) <==> k in KeysIn(front, b) + {c.key} {
        assert Call(k, b) in front + [c] <==> Call(k, b) in front || Call(k, b) == c;
      }
      assert KeysIn(Crowd(n, b), b) == KeysIn(front, b) + {c.key};
      assert c.key !in KeysIn(front, b);
    }
  }

  /** And it comes to that: one session more than the maximum in an hour, and one of them is reported twice. */
  lemma ACrowdIsForgotten(b: int) returns (d: Call)
    ensures d in Crowd(CACHE_MAX + 1, b) && Emits(Crowd(CACHE_MAX + 1, b) + [d])
  {
    CrowdCounts(CACHE_MAX + 1, b);
    d := SomeKeyIsForgotten(Crowd(CACHE_MAX + 1, b), b);
  }

  /**
   How it forgets: when the hour's keys already fill the map, one more new key clears
   them all, and each of them is reported a second time.
   */
  lemma OneKeyTooManyForgetsTheHour(seen: map<string, int>, old': string, key: string, bucket: int)
    requires |seen| == CACHE_MAX && (forall k :: k in seen ==> seen[k] == bucket) && old' in seen && key !in seen
    ensures var (s1, e1) := Sample(seen, key, bucket);
            var (s2, e2) := Sample(s1, old', bucket);
            !Sample(seen, old', bucket).1 && e1 && s1 == map[key := bucket] && e2
  {
    assert WithoutStale(seen, bucket) == seen;
  }

  // ------------------------------------------------------------------ the keys

  /** One user's id is another's with a colon and the front of the other's session id after it. */
  ghost predicate Straddles(u1: string, s1: string, u2: string, s2: string) {
    exists x :: u2 == KeyOf(u1, x) && s1 == KeyOf(x, s2)
  }

  lemma LongerStraddles(u1: string, s1: string, u2: string, s2: string)
    requires KeyOf(u1, s1) == KeyOf(u2, s2) && |u1| < |u2|
    ensures Straddles(u1, s1, u2, s2)
  {
    var k := KeyOf(u1, s1);
    var x := u2[|u1| + 1..];
    assert u2 == k[..|u2|] && u1 == k[..|u1|] && k[|u1|] == ':';
    assert u2 == KeyOf(u1, x);
    assert s1 == k[|u1| + 1..] == KeyOf(x, s2);
  }

  /** For all ids: two sessions share a key exactly when they are the same or one straddles the other's colon. */
  lemma KeysCollideExactlyWhen(u1: string, s1: string, u2: string, s2: string)
    ensures KeyOf(u1, s1) == KeyOf(u2, s2)
            <==> (u1 == u2 && s1 == s2) || Straddles(u1, s1, u2, s2) || Straddles(u2, s2, u1, s1)
  {
    if KeyOf(u1, s1) == KeyOf(u2, s2) {
      if |u1| < |u2| { LongerStraddles(u1, s1, u2, s2); }
      if |u2| < |u1| { LongerStraddles(u2, s2, u1, s1); }
      if |u1| == |u2| {
        var k := KeyOf(u1, s1);
        assert u1 == k[..|u1|] && u2 == k[..|u2|] && s1 == k[|u1| + 1..] && s2 == k[|u2| + 1..];
      }
    }
    if Straddles(u1, s1, u2, s2) { StraddlingCollides(u1, s1, u2, s2); }
    if Straddles(u2, s2, u1, s1) { StraddlingCollides(u2, s2, u1, s1); }
  }

  lemma StraddlingCollides(u1: string, s1: string, u2: string, s2: string)
    requires Straddles(u1, s1, u2, s2)
    ensures KeyOf(u1, s1) == KeyOf(u2, s2)
  {
    var x :| u2 == KeyOf(u1, x) && s1 == KeyOf(x, s2);
    assert u1 + ":" + (x + ":" + s2) == u1 + ":" + x + ":" + s2;
  }

  /** So user ids without a colon keep every session apart. */
  lemma KeysAreDistinct(u1: string, s1: string, u2: string, s2: string)
    requires ':' !in u1 && ':' !in u2 && KeyOf(u1, s1) == KeyOf(u2, s2)
    ensures u1 == u2 && s1 == s2
  {
    KeysCollideExactlyWhen(u1, s1, u2, s2);
    StraddlingNeedsAColon(u1, s1, u2, s2);
    StraddlingNeedsAColon(u2, s2, u1, s1);
  }

  lemma StraddlingNeedsAColon(u1: string, s1: string, u2: string, s2: string)
    ensures Straddles(u1, s1, u2, s2) ==> ':' in u2
  {
    if Straddles(u1, s1, u2, s2) {
      var x :| u2 == KeyOf(u1, x) && s1 == KeyOf(x, s2);
      assert u2[|u1|] == ':';
    }
  }
}
