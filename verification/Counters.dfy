/**
 The two counter stores behind one interface: an ordered dictionary with a count map (metrics.py of the
 backend), and a hash, a set and a list updated by one Redis script (metrics.py of the Web API).
 */
module Counters {
  import opened Basics

  datatype Metric = Tasks | Retries

  type Labels = (string, string)

  datatype Call = Call(metric: Metric, labels: Labels, identity: Option<string>)

  type Counts = map<Labels, nat>

  datatype Snapshot = Snapshot(tasks: Counts, retries: Counts)

  function Of(s: Snapshot, metric: Metric): Counts {
    if metric.Tasks? then s.tasks else s.retries
  }

  function Put(s: Snapshot, metric: Metric, counts: Counts): Snapshot {
    if metric.Tasks? then s.(tasks := counts) else s.(retries := counts)
  }

  function Get(counts: Counts, labels: Labels): nat {
    if labels in counts then counts[labels] else 0
  }

  function Bump(s: Snapshot, metric: Metric, labels: Labels): Snapshot {
    Put(s, metric, Of(s, metric)[labels := Get(Of(s, metric), labels) + 1])
  }

  function Name(metric: Metric): string {
    if metric.Tasks? then "tasks" else "retries"
  }

  /** The identity under which one call is remembered, as the script's argument. */
  function Key(metric: Metric, identity: string): string {
    Name(metric) + ":" + identity
  }

  /** The flat text keeps apart what the dictionary keeps apart as a pair, and is never the "no identity" text. */
  lemma KeyInjective(m1: Metric, i1: string, m2: Metric, i2: string)
    ensures Key(m1, i1) != ""
    ensures Key(m1, i1) == Key(m2, i2) <==> m1 == m2 && i1 == i2
  {
    if Key(m1, i1) == Key(m2, i2) {
      assert Key(m1, i1)[0] == Name(m1)[0] && Key(m2, i2)[0] == Name(m2)[0];
      assert Key(m1, i1)[|Name(m1)| + 1..] == i1;
      assert Key(m2, i2)[|Name(m2)| + 1..] == i2;
    }
  }

  // ---- Specification: what is remembered and what is counted after a sequence of calls ----

  function Last<T>(xs: seq<T>, max: int): seq<T> {
    if max <= 0 then [] else if |xs| <= max then xs else xs[|xs| - max..]
  }

  /** The window is as long as the limit allows and holds the newest, in order. */
  lemma WindowIs<T>(xs: seq<T>, max: int)
    ensures |Last(xs, max)| == if max < 0 then 0 else if |xs| < max then |xs| else max
    ensures xs == xs[..|xs| - |Last(xs, max)|] + Last(xs, max)
  {
  }

  /** An admitted identity is remembered exactly while fewer than `max` were admitted after it. */
  lemma RememberedIff(calls: seq<Call>, max: int, key: string)
    ensures key in Remembered(calls, max) <==>
              exists i :: 0 <= i < |Admitted(calls, max)| && Admitted(calls, max)[i] == key && |Admitted(calls, max)| - i <= max
  {
    WindowHas(Admitted(calls, max), max, key);
  }

  lemma WindowHas<T>(xs: seq<T>, max: int, x: T)
    ensures x in Last(xs, max) <==> exists i :: 0 <= i < |xs| && xs[i] == x && |xs| - i <= max
  {
    if 0 < max < |xs| {
      SuffixHas(xs, |xs| - max, x);
    }
  }

  lemma SuffixHas<T>(xs: seq<T>, from: nat, x: T)
    requires from <= |xs|
    ensures x in xs[from..] <==> exists i :: from <= i < |xs| && xs[i] == x
  {
    var suffix := xs[from..];
    if x in suffix {
      var j :| 0 <= j < |suffix| && suffix[j] == x;
      assert xs[from + j] == x;
    }
  }

  function Limit(max: int): nat {
    if max < 0 then 0 else max
  }

  function Front(calls: seq<Call>): seq<Call>
    requires calls != []
  {
    calls[..|calls| - 1]
  }

  function End(calls: seq<Call>): Call
    requires calls != []
  {
    calls[|calls| - 1]
  }

  /** A call is new when it has no identity or one that is not remembered. */
  predicate Fresh(c: Call, remembered: seq<string>) {
    c.identity.None? || Key(c.metric, c.identity.value) !in remembered
  }

  /** Every identity admitted so far, in order. */
  function Admitted(calls: seq<Call>, max: int): seq<string> {
    if calls == [] then []
    else
      var before := Admitted(Front(calls), max);
      var c := End(calls);
      if c.identity.Some? && Fresh(c, Last(before, max)) then before + [Key(c.metric, c.identity.value)] else before
  }

  function Remembered(calls: seq<Call>, max: int): seq<string> {
    Last(Admitted(calls, max), max)
  }

  /** How many new calls carried these labels; `raising` leaves out those whose bookkeeping raises. */
  function Tally(calls: seq<Call>, max: int, raising: bool, metric: Metric, labels: Labels): nat {
    if calls == [] then 0
    else
      var c := End(calls);
      var counted := Fresh(c, Remembered(Front(calls), max)) && !(raising && Raises(c, max));
      Tally(Front(calls), max, raising, metric, labels)
      + (if counted && c.metric == metric && c.labels == labels then 1 else 0)
  }

  /** popitem on an empty dictionary: only a negative limit gets the eviction loop that far. */
  predicate Raises(c: Call, max: int) {
    max < 0 && c.identity.Some?
  }

  ghost predicate Shows(s: Snapshot, calls: seq<Call>, max: int, raising: bool) {
    forall metric, labels ::
      && Get(Of(s, metric), labels) == Tally(calls, max, raising, metric, labels)
      && (labels in Of(s, metric) ==> Of(s, metric)[labels] > 0)
  }

  predicate Distinct<T(==)>(xs: seq<T>) {
    forall i, j :: 0 <= i < j < |xs| ==> xs[i] != xs[j]
  }

  lemma {:induction false} RememberedDistinct(calls: seq<Call>, max: int)
    ensures Distinct(Remembered(calls, max))
  {
    if calls != [] {
      RememberedDistinct(Front(calls), max);
      RememberedStep(Front(calls), End(calls), max);
    }
  }

  /** One more call shifts the window by at most one. */
  lemma RememberedStep(calls: seq<Call>, c: Call, max: int)
    ensures Remembered(calls + [c], max)
         == if c.identity.Some? && Fresh(c, Remembered(calls, max))
            then Last(Remembered(calls, max) + [Key(c.metric, c.identity.value)], max)
            else Remembered(calls, max)
  {
    assert Front(calls + [c]) == calls;
  }

  lemma ShowsStep(s: Snapshot, calls: seq<Call>, c: Call, max: int, raising: bool)
    requires Shows(s, calls, max, raising)
    ensures Shows(if Fresh(c, Remembered(calls, max)) && !(raising && Raises(c, max)) then Bump(s, c.metric, c.labels) else s,
                  calls + [c], max, raising)
  {
    assert Front(calls + [c]) == calls;
    forall metric, labels
      ensures Tally(calls + [c], max, raising, metric, labels) == Tally(calls, max, raising, metric, labels)
              + (if Fresh(c, Remembered(calls, max)) && !(raising && Raises(c, max)) && c.metric == metric && c.labels == labels then 1 else 0)
    {
    }
  }

  // ---- The ordered dictionary ----

  class MemoryCounters {
    var counts: Snapshot
    var seen: seq<string>
    const maxSeen: int

    constructor (max: int)
      ensures Valid([]) && maxSeen == max
    {
      counts, seen, maxSeen := Snapshot(map[], map[]), [], max;
    }

    ghost predicate Valid(calls: seq<Call>)
      reads this
    {
      Shows(counts, calls, maxSeen, true) && seen == Remembered(calls, maxSeen)
    }

    /** The eviction loop. It raises when it is asked to empty an empty dictionary. */
    method Evict() returns (raised: bool)
      modifies `seen
      ensures seen == Last(old(seen), maxSeen)
      ensures raised <==> maxSeen < 0
    {
      ghost var all, k := seen, 0;
      while |seen| > maxSeen
        invariant 0 <= k <= |all| && seen == all[k..]
        invariant k > 0 ==> |seen| >= maxSeen
        decreases |seen|
      {
        if seen == [] {
          return true;
        }
        assert seen[1..] == all[k + 1..];
        seen := seen[1..];
        k := k + 1;
      }
      return false;
    }

    method Increment(c: Call, ghost calls: seq<Call>) returns (raised: bool)
      requires Valid(calls)
      modifies this
      ensures Valid(calls + [c])
      ensures raised <==> Raises(c, maxSeen)
    {
      RememberedStep(calls, c, maxSeen);
      ShowsStep(counts, calls, c, maxSeen, true);
      raised := false;
      if c.identity.Some? {
        var key := Key(c.metric, c.identity.value);
        if key in seen {
          assert !Fresh(c, Remembered(calls, maxSeen));
          return;
        }
        seen := seen + [key];
        raised := Evict();
        if raised {
          return;
        }
      }
      counts := Bump(counts, c.metric, c.labels);
    }
  }

  // ---- The script ----

  class RedisCounters {
    var hashes: Snapshot
    var members: set<string>
    var order: seq<string>
    const maxSeen: int

    constructor (max: int)
      ensures Valid([]) && maxSeen == max
    {
      hashes, members, order, maxSeen := Snapshot(map[], map[]), {}, [], max;
    }

    ghost predicate Valid(calls: seq<Call>)
      reads this
    {
      && Shows(hashes, calls, maxSeen, false)
      && order == Remembered(calls, maxSeen)
      && members == (set k | k in order)
    }

    /** The script's bookkeeping for a new identity: SADD, RPUSH, and one LPOP and SREM past the limit. */
    method Remember(argument: string)
      requires argument !in order && |order| <= Limit(maxSeen)
      requires Distinct(order) && members == (set k | k in order)
      modifies `members, `order
      ensures order == Last(old(order) + [argument], maxSeen)
      ensures members == (set k | k in order)
    {
      members := members + {argument};
      order := order + [argument];
      if |order| > maxSeen {
        ghost var all := order;
        members := members - {order[0]};
        order := order[1..];
        assert all == [all[0]] + order;
        assert forall k :: k in all <==> k == all[0] || k in order;
      }
    }

    method Increment(c: Call, ghost calls: seq<Call>)
      requires Valid(calls)
      modifies this
      ensures Valid(calls + [c])
    {
      RememberedStep(calls, c, maxSeen);
      ShowsStep(hashes, calls, c, maxSeen, false);
      RememberedDistinct(calls, maxSeen);
      var argument := if c.identity.Some? then Key(c.metric, c.identity.value) else "";
      if argument != "" && argument in members {
        assert !Fresh(c, Remembered(calls, maxSeen));
        return;
      }
      hashes := Bump(hashes, c.metric, c.labels);
      if argument != "" {
        Remember(argument);
      }
    }
  }

  // ---- Agreement ----

  predicate Anonymous(calls: seq<Call>) {
    forall c | c in calls :: c.identity.None?
  }

  /** With a usable limit, or without identities, nothing raises and both tallies are one. */
  lemma {:induction false} TalliesAgree(calls: seq<Call>, max: int, metric: Metric, labels: Labels)
    requires max >= 0 || Anonymous(calls)
    ensures Tally(calls, max, true, metric, labels) == Tally(calls, max, false, metric, labels)
  {
    if calls != [] {
      TalliesAgree(Front(calls), max, metric, labels);
      assert End(calls) in calls;
    }
  }

  lemma {:induction false} RaisingCountsLess(calls: seq<Call>, max: int, metric: Metric, labels: Labels)
    ensures Tally(calls, max, true, metric, labels) <= Tally(calls, max, false, metric, labels)
  {
    if calls != [] {
      RaisingCountsLess(Front(calls), max, metric, labels);
    }
  }

  lemma {:induction false} TalliesDiffer(calls: seq<Call>, max: int) returns (c: Call)
    requires max < 0 && !Anonymous(calls)
    ensures Tally(calls, max, true, c.metric, c.labels) < Tally(calls, max, false, c.metric, c.labels)
  {
    c := End(calls);
    if c.identity.Some? {
      RaisingCountsLess(Front(calls), max, c.metric, c.labels);
    } else {
      assert calls == Front(calls) + [c];
      c := TalliesDiffer(Front(calls), max);
    }
  }

  lemma SameTallySameSnapshot(a: Snapshot, b: Snapshot, calls: seq<Call>, max: int)
    requires Shows(a, calls, max, true) && Shows(b, calls, max, false)
    ensures a == b <==> max >= 0 || Anonymous(calls)
  {
    if max >= 0 || Anonymous(calls) {
      forall metric, labels
        ensures Get(Of(a, metric), labels) == Get(Of(b, metric), labels)
        ensures labels in Of(a, metric) <==> labels in Of(b, metric)
      {
        TalliesAgree(calls, max, metric, labels);
      }
      assert Of(a, Tasks) == Of(b, Tasks) && Of(a, Retries) == Of(b, Retries);
    } else {
      var c := TalliesDiffer(calls, max);
      assert Get(Of(a, c.metric), c.labels) != Get(Of(b, c.metric), c.labels);
    }
  }

  /**
   The same calls on both stores give the same snapshot and remember the same identities, exactly when
   the limit is not negative or no call has an identity.
  */
  method Replay(calls: seq<Call>, max: int) returns (memory: MemoryCounters, redis: RedisCounters)
    ensures memory.Valid(calls) && redis.Valid(calls) && memory.maxSeen == redis.maxSeen == max
    ensures memory.seen == redis.order
    ensures memory.counts == redis.hashes <==> max >= 0 || Anonymous(calls)
  {
    memory := new MemoryCounters(max);
    redis := new RedisCounters(max);
    var i := 0;
    while i < |calls|
      invariant 0 <= i <= |calls|
      invariant fresh(memory) && fresh(redis)
      invariant memory.Valid(calls[..i]) && redis.Valid(calls[..i]) && memory.maxSeen == redis.maxSeen == max
    {
      var _ := memory.Increment(calls[i], calls[..i]);
      redis.Increment(calls[i], calls[..i]);
      assert calls[..i + 1] == calls[..i] + [calls[i]];
      i := i + 1;
    }
    assert calls[..|calls|] == calls;
    SameTallySameSnapshot(memory.counts, redis.hashes, calls, max);
  }
}
