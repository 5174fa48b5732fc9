/** The sliding-window rate limiter: how many calls per key a window admits, in a table of bounded size. */
module Limiter {
  import opened Cards
  import opened Sums

  const SWEEP_EVERY := 64

  function Stamps(logs: map<Id, seq<int>>, key: Id): seq<int> {
    if key in logs then logs[key] else []
  }

  /** Drops the timestamps at or before threshold. */
  function Recent(stamps: seq<int>, threshold: int): seq<int> {
    if stamps == [] then []
    else (if stamps[0] > threshold then [stamps[0]] else []) + Recent(stamps[1..], threshold)
  }

  lemma RecentFrom(stamps: seq<int>, i: nat, threshold: int)
    requires i < |stamps|
    ensures Recent(stamps[i..], threshold)
         == (if stamps[i] > threshold then [stamps[i]] else []) + Recent(stamps[i + 1..], threshold)
  {
    assert stamps[i..][1..] == stamps[i + 1..];
  }

  ghost predicate InOrder(s: seq<int>) {
    forall i, j | 0 <= i < j < |s| :: s[i] <= s[j]
  }

  /** What is left of all the calls ever admitted: a tail, and everything before it has expired. */
  ghost predicate TailOf(calls: seq<int>, stamps: seq<int>, threshold: int) {
    && |stamps| <= |calls| && stamps == calls[|calls| - |stamps|..]
    && forall i | 0 <= i < |calls| - |stamps| :: calls[i] <= threshold
  }

  lemma {:induction false} AllRecent(s: seq<int>, threshold: int)
    requires forall i | 0 <= i < |s| :: s[i] > threshold
    ensures Recent(s, threshold) == s
  {
    if s != [] {
      AllRecent(s[1..], threshold);
      assert s == [s[0]] + s[1..];
    }
  }

  lemma {:induction false} RecentOfOrdered(s: seq<int>, threshold: int) returns (cut: nat)
    requires InOrder(s)
    ensures cut <= |s| && Recent(s, threshold) == s[cut..]
    ensures (forall i | 0 <= i < cut :: s[i] <= threshold) && forall i | cut <= i < |s| :: s[i] > threshold
  {
    cut := 0;
    if s != [] {
      if s[0] > threshold {
        AllRecent(s, threshold);
      } else {
        var rest := RecentOfOrdered(s[1..], threshold);
        cut := rest + 1;
        assert s[1..][rest..] == s[cut..];
        assert forall i | 1 <= i < |s| :: s[i] == s[1..][i - 1];
      }
    }
  }

  lemma FilteredTail(calls: seq<int>, stamps: seq<int>, was: int, threshold: int)
    requires InOrder(calls) && TailOf(calls, stamps, was) && was <= threshold
    ensures TailOf(calls, Recent(stamps, threshold), threshold)
  {
    var from := |calls| - |stamps|;
    assert InOrder(stamps);
    var cut := RecentOfOrdered(stamps, threshold);
    assert stamps[cut..] == calls[from + cut..];
    forall i | 0 <= i < from + cut ensures calls[i] <= threshold {
      assert i >= from ==> calls[i] == stamps[i - from];
    }
  }

  /** Any call more than the limit comes a whole window after the call that many before it. */
  ghost predicate Spaced(calls: seq<int>, limit: int, window: int) {
    forall i, j | 0 <= i < |calls| && 0 <= j < |calls| && j == i + limit :: calls[i] + window <= calls[j]
  }

  ghost function InWindow(calls: seq<int>, window: int, t: int): set<nat> {
    set i | i in SetUpTo(|calls|) && t - window < calls[i] <= t
  }

  function SetUpTo(n: nat): (r: set<nat>)
    ensures |r| == n && forall i :: i in r <==> 0 <= i < n
  {
    if n == 0 then {} else SetUpTo(n - 1) + {n - 1}
  }

  lemma Beyond(calls: seq<int>, limit: nat, window: int, first: nat, i: nat)
    requires InOrder(calls) && Spaced(calls, limit, window) && first + limit <= i < |calls|
    ensures calls[first] + window <= calls[i]
  {
    assert calls[first] + window <= calls[first + limit];
  }

  /** No half-open window of the configured length holds more admitted calls than the limit. */
  lemma SpacedMeansFew(calls: seq<int>, limit: nat, window: int, t: int)
    requires InOrder(calls) && Spaced(calls, limit, window)
    ensures |InWindow(calls, window, t)| <= limit
  {
    var inside := InWindow(calls, window, t);
    if inside != {} {
      var first := Least(inside);
      var block := SetUpTo(first + limit) - SetUpTo(first);
      forall i | i in inside ensures i in block {
        if i >= first + limit {
          Beyond(calls, limit, window, first, i);
        }
      }
      SubsetSize(inside, block);
      assert SetUpTo(first + limit) == SetUpTo(first) + block;
    }
  }

  lemma SpacedGrows(calls: seq<int>, stamps: seq<int>, limit: int, window: int, now: int)
    requires InOrder(calls) && Spaced(calls, limit, window) && (forall c | c in calls :: c <= now)
    requires TailOf(calls, stamps, now - window) && |stamps| < limit
    ensures InOrder(calls + [now]) && Spaced(calls + [now], limit, window)
    ensures TailOf(calls + [now], stamps + [now], now - window)
  {
    var more := calls + [now];
    forall i, j | 0 <= i < |more| && 0 <= j < |more| && j == i + limit ensures more[i] + window <= more[j] {
      if j == |calls| {
        assert i < |calls| - |stamps|;
      }
    }
    forall i, j | 0 <= i < j < |more| ensures more[i] <= more[j] {
      assert more[i] in calls;
    }
    assert more[|more| - |stamps + [now]|..] == calls[|calls| - |stamps|..] + [now];
  }

  /** Exactly the unexpired calls are on record, and the admitted ones came well apart. */
  ghost predicate KeptBy(calls: seq<int>, stamps: seq<int>, limit: int, window: int, last: int) {
    && InOrder(calls) && Spaced(calls, limit, window) && (forall c | c in calls :: c <= last)
    && TailOf(calls, stamps, last - window)
  }

  lemma KeptAges(calls: seq<int>, stamps: seq<int>, limit: int, window: int, last: int, now: int)
    requires KeptBy(calls, stamps, limit, window, last) && last <= now
    ensures KeptBy(calls, stamps, limit, window, now)
    ensures KeptBy(calls, Recent(stamps, now - window), limit, window, now)
  {
    FilteredTail(calls, stamps, last - window, now - window);
  }

  lemma {:induction false} RecentAreLate(s: seq<int>, threshold: int)
    ensures forall c | c in Recent(s, threshold) :: c > threshold
  {
    if s != [] {
      RecentAreLate(s[1..], threshold);
    }
  }

  lemma TailFillsWindow(calls: seq<int>, kept: seq<int>, window: int, now: int)
    requires TailOf(calls, kept, now - window) && (forall c | c in kept :: c > now - window)
    requires forall c | c in calls :: c <= now
    ensures |InWindow(calls, window, now)| == |kept|
  {
    var from := |calls| - |kept|;
    forall i | from <= i < |calls| ensures now - window < calls[i] <= now {
      assert calls[i] == kept[i - from];
      assert kept[i - from] in kept && calls[i] in calls;
    }
    assert SetUpTo(|calls|) == SetUpTo(from) + InWindow(calls, window, now);
  }

  /** The pruned record is as long as the window has admitted calls in it. */
  lemma RecordCounts(calls: seq<int>, stamps: seq<int>, limit: int, window: int, last: int, now: int)
    requires KeptBy(calls, stamps, limit, window, last) && last <= now
    ensures |InWindow(calls, window, now)| == |Recent(stamps, now - window)|
  {
    KeptAges(calls, stamps, limit, window, last, now);
    RecentAreLate(stamps, now - window);
    TailFillsWindow(calls, Recent(stamps, now - window), window, now);
  }

  lemma KeptGrows(calls: seq<int>, stamps: seq<int>, limit: int, window: int, now: int)
    requires KeptBy(calls, stamps, limit, window, now) && |stamps| < limit
    ensures KeptBy(calls + [now], stamps + [now], limit, window, now)
  {
    SpacedGrows(calls, stamps, limit, window, now);
  }

  class SlidingWindowLimiter {
    const limit: int
    const window: int
    const maxKeys: nat
    var logs: map<Id, seq<int>>
    var ops: nat
    ghost var admitted: map<Id, seq<int>>  // every call ever let through
    ghost var evicted: set<Id>             // keys dropped to make room
    ghost var last: int

    ghost predicate Kept(key: Id)
      reads this
    {
      KeptBy(Stamps(admitted, key), Stamps(logs, key), limit, window, last)
    }

    /** The table is bounded, and every key that was never evicted is on record as it should be. */
    ghost predicate Valid()
      reads this
    {
      && maxKeys >= 1 && |logs| <= maxKeys
      && (forall k | k in logs :: logs[k] != [])
      && forall k | k !in evicted :: Kept(k)
    }

    constructor (limit: int, window: int, maxKeys: nat, now: int)
      requires maxKeys >= 1
      ensures Valid() && logs == map[] && evicted == {} && admitted == map[] && last == now
      ensures this.limit == limit && this.window == window && this.maxKeys == maxKeys
    {
      this.limit, this.window, this.maxKeys := limit, window, maxKeys;
      this.logs, this.ops := map[], 0;
      this.admitted, this.evicted, this.last := map[], {}, now;
      new;
      forall k ensures Kept(k) {
        assert KeptBy([], [], limit, window, now);
      }
    }

    method FilterExpired(stamps: seq<int>, threshold: int) returns (kept: seq<int>)
      ensures kept == Recent(stamps, threshold)
    {
      kept := [];
      for i := 0 to |stamps|
        invariant kept + Recent(stamps[i..], threshold) == Recent(stamps, threshold)
      {
        RecentFrom(stamps, i, threshold);
        if stamps[i] > threshold {
          kept := kept + [stamps[i]];
        }
      }
    }

    /** Replaces one key's record by what has not expired of it. */
    method Prune(key: Id, threshold: int) returns (stamps: seq<int>)
      modifies this`logs
      ensures stamps == Recent(Stamps(old(logs), key), threshold)
      ensures logs == if stamps == [] then old(logs) - {key} else old(logs)[key := stamps]
      ensures stamps == Stamps(logs, key) && forall k | k != key :: Stamps(logs, k) == Stamps(old(logs), k)
      ensures (key in logs ==> key in old(logs)) && |logs| <= |old(logs)|
      ensures key in old(logs) && key !in logs ==> |logs| < |old(logs)|
      ensures (forall k | k in old(logs) :: old(logs)[k] != []) ==> forall k | k in logs :: logs[k] != []
    {
      ghost var was := logs;
      SizeWithout(was, key);
      stamps := FilterExpired(Stamps(logs, key), threshold);
      if stamps == [] {
        logs := logs - {key};
      } else {
        logs := logs[key := stamps];
      }
    }

    /** Prunes every key. */
    method EvictExpired(threshold: int)
      requires forall k | k in logs :: logs[k] != []
      modifies this`logs
      ensures forall k :: Stamps(logs, k) == Recent(Stamps(old(logs), k), threshold)
      ensures logs.Keys <= old(logs).Keys && |logs| <= |old(logs)|
      ensures forall k | k in logs :: logs[k] != []
    {
      var todo := logs.Keys;
      while todo != {}
        invariant todo <= old(logs).Keys && logs.Keys <= old(logs).Keys
        invariant forall k | k in todo :: k in logs && logs[k] == old(logs)[k]
        invariant forall k | k !in todo :: Stamps(logs, k) == Recent(Stamps(old(logs), k), threshold)
        invariant forall k | k in logs :: logs[k] != []
      {
        var key :| key in todo;
        var _ := Prune(key, threshold);
        todo := todo - {key};
      }
      SubsetSize(logs.Keys, old(logs).Keys);
    }

    /** Drops an arbitrary key. */
    method EvictOne() returns (ghost victim: Id)
      requires logs != map[]
      modifies this`logs
      ensures victim in old(logs) && logs == old(logs) - {victim}
    {
      var key :| key in logs;
      victim := key;
      logs := logs - {key};
    }

    /** The key's own record, pruned; every other key just grows older. */
    method Settle(key: Id, now: int) returns (stamps: seq<int>)
      requires Valid() && now >= last
      modifies this`logs, this`last
      ensures Valid() && last == now && stamps == Stamps(logs, key) == Recent(Stamps(old(logs), key), now - window)
      ensures (key in logs ==> key in old(logs)) && |logs| <= |old(logs)|
      ensures key in old(logs) && key !in logs ==> |logs| < |old(logs)|
    {
      ghost var was := logs;
      AllAge(now);
      stamps := Prune(key, now - window);
      last := now;
      forall k | k !in evicted ensures Kept(k) {
        assert Stamps(logs, k) == Stamps(was, k) || Stamps(logs, k) == Recent(Stamps(was, k), now - window);
      }
    }

    lemma AllAge(now: int)
      requires Valid() && now >= last
      ensures forall k | k !in evicted :: KeptBy(Stamps(admitted, k), Stamps(logs, k), limit, window, now)
      ensures forall k | k !in evicted ::
                KeptBy(Stamps(admitted, k), Recent(Stamps(logs, k), now - window), limit, window, now)
    {
      forall k | k !in evicted
        ensures KeptBy(Stamps(admitted, k), Stamps(logs, k), limit, window, now)
        ensures KeptBy(Stamps(admitted, k), Recent(Stamps(logs, k), now - window), limit, window, now)
      {
        assert Kept(k);
        KeptAges(Stamps(admitted, k), Stamps(logs, k), limit, window, last, now);
      }
    }

    /** A full table loses an arbitrary key before a new one comes in. */
    method MakeRoom(key: Id)
      requires Valid()
      modifies this`logs, this`evicted
      ensures Valid() && Stamps(logs, key) == Stamps(old(logs), key)
      ensures key in logs || |logs| < maxKeys
      ensures old(evicted) <= evicted
      ensures key in old(logs) || |old(logs)| < maxKeys ==> evicted == old(evicted)
    {
      if key !in logs && |logs| >= maxKeys {
        ghost var was := logs;
        ghost var victim := EvictOne();
        evicted := evicted + {victim};
        SizeWithout(was, victim);
        forall k | k !in evicted ensures Kept(k) {
          assert Stamps(logs, k) == Stamps(was, k);
        }
      }
    }

    method Record(key: Id, now: int)
      requires Valid() && last == now && |Stamps(logs, key)| < limit && (key in logs || |logs| < maxKeys)
      modifies this`logs, this`admitted
      ensures Valid() && admitted == old(admitted)[key := Stamps(old(admitted), key) + [now]]
    {
      ghost var calls := Stamps(admitted, key);
      if key !in evicted {
        KeptGrows(calls, Stamps(logs, key), limit, window, now);
      }
      ghost var had, were := admitted, logs;
      logs := logs[key := Stamps(logs, key) + [now]];
      admitted := admitted[key := calls + [now]];
      forall k | k !in evicted ensures Kept(k) {
        if k != key {
          assert KeptBy(Stamps(had, k), Stamps(were, k), limit, window, last);
        }
      }
    }

    /** Prunes the whole table. */
    method PruneAll(now: int)
      requires Valid() && last == now
      modifies this`logs
      ensures Valid()
    {
      ghost var were := logs;
      EvictExpired(now - window);
      forall k | k !in evicted ensures Kept(k) {
        assert old(Kept(k));
        KeptAges(Stamps(admitted, k), Stamps(were, k), limit, window, now, now);
      }
    }

    /** Every so often, the whole table is pruned. */
    method Sweep(now: int)
      requires Valid() && last == now
      modifies this`logs, this`ops
      ensures Valid()
    {
      ops := ops + 1;
      if ops % SWEEP_EVERY == 0 {
        PruneAll(now);
      }
    }

    /** Admits the call unless its key has used up the window; time never runs backwards between calls. */
    method Allow(key: Id, now: int) returns (ok: bool)
      requires Valid() && now >= last
      modifies this
      ensures Valid() && last == now
      ensures ok <==> |Recent(Stamps(old(logs), key), now - window)| < limit
      ensures key !in old(evicted) ==> (ok <==> |InWindow(Stamps(old(admitted), key), window, now)| < limit)
      ensures admitted == if ok then old(admitted)[key := Stamps(old(admitted), key) + [now]] else old(admitted)
      ensures old(evicted) <= evicted
      ensures !ok || key in old(logs) || |old(logs)| < maxKeys ==> evicted == old(evicted)
    {
      RecordIsTheWindow(key, now);
      var stamps := Settle(key, now);
      if |stamps| >= limit {
        return false;
      }
      MakeRoom(key);
      Record(key, now);
      Sweep(now);
      return true;
    }

    lemma RecordIsTheWindow(key: Id, now: int)
      requires Valid() && now >= last
      ensures key !in evicted ==>
                |InWindow(Stamps(admitted, key), window, now)| == |Recent(Stamps(logs, key), now - window)|
    {
      if key !in evicted {
        assert Kept(key);
        RecordCounts(Stamps(admitted, key), Stamps(logs, key), limit, window, last, now);
      }
    }

    /** What the limiter is for: a key that was never evicted never gets more than its limit into one window. */
    lemma NeverTooMany(key: Id, t: int)
      requires Valid() && key !in evicted && limit >= 0
      ensures |InWindow(Stamps(admitted, key), window, t)| <= limit
    {
      assert Kept(key);
      SpacedMeansFew(Stamps(admitted, key), limit, window, t);
    }
  }

  lemma SizeWithout(m: map<Id, seq<int>>, k: Id)
    ensures |m - {k}| == |m| - (if k in m then 1 else 0)
  {
    if k in m {
      assert (m - {k}).Keys == m.Keys - {k};
    } else {
      assert m - {k} == m;
    }
  }
}
