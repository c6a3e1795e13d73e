/**
 The rotating log store (diagnostics.rs): one writer, one directory, a budget on the whole directory.
 The directory is the list its enumeration yields. Clock readings are parameters, in seconds; `fault`
 parameters say whether the system may refuse a call.
 */
module LogStore {
  import opened Basics

  const RETENTION_SECONDS := 7 * 86400
  const SETTLED_SECONDS := 60
  const DAY_SECONDS := 86400
  const MAX_FILES := 4096
  const MAX_PART := 999999
  const MEMORY_RECORDS := 256

  datatype Limits = Limits(total: nat, file: nat)

  datatype Owner = Managed | Bookkeeping | Foreign

  /** One directory entry. Only regular files that are not links are listed. */
  datatype Entry = Entry(name: string, bytes: nat, modified: int, regular: bool)

  datatype Report = Ok | OverLimit | TooMany | NoDirectory | RotationLimit | NameTaken | Fault

  // ---- Names ----

  predicate Digit(c: char) {
    '0' <= c <= '9'
  }

  predicate Hex(c: char) {
    Digit(c) || 'a' <= c <= 'f'
  }

  /** Thirty-two lower-case hexadecimal digits. */
  predicate Identity(s: string) {
    |s| == 32 && forall c :: c in s ==> Hex(c)
  }

  /** `wenyi-<session>-<six digits>.jsonl`, split at the first hyphen after the prefix. */
  predicate OwnedName(name: string) {
    && "wenyi-" <= name
    && |name| >= 12 && name[|name| - 6..] == ".jsonl"
    && Parted(name[6..|name| - 6])
  }

  predicate Parted(middle: string) {
    var at := Find(middle, '-');
    at.Some? && Identity(middle[..at.value]) && |middle| - at.value - 1 == 6
    && forall c :: c in middle[at.value + 1..] ==> Digit(c)
  }

  function Find(s: string, c: char): (r: Option<nat>)
    ensures r.Some? ==> r.value < |s| && s[r.value] == c && c !in s[..r.value]
    ensures r.None? ==> c !in s
  {
    if s == [] then None
    else if s[0] == c then Some(0)
    else
      var rest := Find(s[1..], c);
      if rest.None? then None
      else
        assert s[..rest.value + 1] == [s[0]] + s[1..][..rest.value];
        Some(rest.value + 1)
  }

  function OwnerOf(name: string): Owner {
    if OwnedName(name) then Managed
    else if name == ".owner.lock" || name == ".session-active" then Bookkeeping
    else Foreign
  }

  function PartName(session: string, part: string): string {
    "wenyi-" + session + "-" + part + ".jsonl"
  }

  lemma {:induction false} FindFirst(s: string, rest: string, c: char)
    requires c !in s
    ensures Find(s + [c] + rest, c) == Some(|s|)
  {
    if s == [] {
      assert ([c] + rest)[0] == c;
      assert s + [c] + rest == [c] + rest;
    } else {
      assert (s + [c] + rest)[1..] == s[1..] + [c] + rest;
      FindFirst(s[1..], rest, c);
    }
  }

  lemma OwnedIsCreated(name: string) returns (session: string, part: string)
    requires OwnedName(name)
    ensures Identity(session) && |part| == 6 && (forall c :: c in part ==> Digit(c)) && name == PartName(session, part)
  {
    var middle := name[6..|name| - 6];
    var at := Find(middle, '-').value;
    session, part := middle[..at], middle[at + 1..];
    assert middle == session + "-" + part;
    assert name == "wenyi-" + middle + ".jsonl";
  }

  lemma CreatedIsOwned(session: string, part: string)
    requires Identity(session) && |part| == 6 && forall c :: c in part ==> Digit(c)
    ensures OwnedName(PartName(session, part))
  {
    var name, middle := PartName(session, part), session + "-" + part;
    assert name == "wenyi-" + middle + ".jsonl";
    assert name[6..|name| - 6] == middle && "wenyi-" <= name && name[|name| - 6..] == ".jsonl";
    FindFirst(session, part, '-');
    assert middle[..|session|] == session && middle[|session| + 1..] == part;
  }

  /** The store owns exactly the names it can create, so a name says who may remove the file. */
  lemma OwnsWhatItCreates(name: string)
    ensures OwnerOf(name) == Managed <==>
            exists session, part :: Identity(session) && |part| == 6 && (forall c :: c in part ==> Digit(c))
                                    && name == PartName(session, part)
  {
    hide OwnedName, PartName;
    if OwnerOf(name) == Managed {
      var _, _ := OwnedIsCreated(name);
    }
    if session, part :| Identity(session) && |part| == 6 && (forall c :: c in part ==> Digit(c))
                        && name == PartName(session, part) {
      CreatedIsOwned(session, part);
    }
  }

  // ---- Directory contents ----

  function Usage(dir: seq<Entry>): nat {
    if dir == [] then 0 else Usage(dir[..|dir| - 1]) + (if dir[|dir| - 1].regular then dir[|dir| - 1].bytes else 0)
  }

  predicate Distinct(dir: seq<Entry>) {
    forall i, j :: 0 <= i < j < |dir| ==> dir[i].name != dir[j].name
  }

  function Without(dir: seq<Entry>, name: string): seq<Entry> {
    if dir == [] then []
    else Without(dir[..|dir| - 1], name) + (if dir[|dir| - 1].name == name then [] else [dir[|dir| - 1]])
  }

  predicate Sorted(files: seq<Entry>) {
    forall i, j :: 0 <= i < j < |files| ==> files[i].modified <= files[j].modified
  }

  /** Insertion behind every entry that is not newer: one step of a stable sort. */
  function Inserted(files: seq<Entry>, e: Entry): (r: seq<Entry>)
    ensures multiset(r) == multiset(files) + multiset{e} && |r| == |files| + 1
  {
    if files == [] || files[|files| - 1].modified <= e.modified then files + [e]
    else
      assert files == files[..|files| - 1] + [files[|files| - 1]];
      Inserted(files[..|files| - 1], e) + [files[|files| - 1]]
  }

  lemma {:induction false} ListedGrows(dir: seq<Entry>, i: nat)
    requires i <= |dir|
    ensures |Listed(dir[..i])| <= |Listed(dir)|
  {
    if i == |dir| {
      assert dir[..i] == dir;
    } else {
      ListedGrows(dir[..|dir| - 1], i);
      assert dir[..|dir| - 1][..i] == dir[..i];
    }
  }

  lemma InsertedHas(files: seq<Entry>, e: Entry, x: Entry)
    ensures x in Inserted(files, e) <==> x in files || x == e
  {
    assert x in Inserted(files, e) <==> x in multiset(Inserted(files, e));
    assert x in files <==> x in multiset(files);
  }

  lemma InsertedSorted(files: seq<Entry>, e: Entry)
    requires Sorted(files)
    ensures Sorted(Inserted(files, e))
  {
    if files == [] || files[|files| - 1].modified <= e.modified {
    } else {
      var rest := files[..|files| - 1];
      InsertedSorted(rest, e);
      var r := Inserted(rest, e);
      forall i | 0 <= i < |r|
        ensures r[i].modified <= files[|files| - 1].modified
      {
        InsertedHas(rest, e, r[i]);
        assert r[i] in rest ==> r[i] in files[..|files| - 1];
      }
    }
  }

  function Listed(dir: seq<Entry>): seq<Entry> {
    if dir == [] then []
    else if dir[|dir| - 1].regular then Inserted(Listed(dir[..|dir| - 1]), dir[|dir| - 1])
    else Listed(dir[..|dir| - 1])
  }

  lemma InsertedUsage(files: seq<Entry>, e: Entry)
    ensures Usage(Inserted(files, e)) == Usage(files) + (if e.regular then e.bytes else 0)
  {
    if files == [] || files[|files| - 1].modified <= e.modified {
      assert (files + [e])[..|files|] == files;
    } else {
      var rest := Inserted(files[..|files| - 1], e);
      InsertedUsage(files[..|files| - 1], e);
      assert (rest + [files[|files| - 1]])[..|rest|] == rest;
    }
  }

  lemma {:induction false} ListedHas(dir: seq<Entry>)
    ensures forall e :: e in Listed(dir) <==> e in dir && e.regular
  {
    if dir != [] {
      var front, last := dir[..|dir| - 1], dir[|dir| - 1];
      ListedHas(front);
      assert dir == front + [last];
      if last.regular {
        forall e
          ensures e in Listed(dir) <==> e in Listed(front) || e == last
        {
          InsertedHas(Listed(front), last, e);
        }
      }
    }
  }

  lemma {:induction false} ListedSorted(dir: seq<Entry>)
    ensures Sorted(Listed(dir))
  {
    if dir != [] {
      ListedSorted(dir[..|dir| - 1]);
      InsertedSorted(Listed(dir[..|dir| - 1]), dir[|dir| - 1]);
    }
  }

  lemma {:induction false} ListedWeighs(dir: seq<Entry>)
    ensures Usage(Listed(dir)) == Usage(dir)
  {
    if dir != [] {
      ListedWeighs(dir[..|dir| - 1]);
      InsertedUsage(Listed(dir[..|dir| - 1]), dir[|dir| - 1]);
    }
  }

  lemma InsertedDistinct(files: seq<Entry>, e: Entry)
    requires Distinct(files) && forall f :: f in files ==> f.name != e.name
    ensures Distinct(Inserted(files, e))
  {
    if files == [] || files[|files| - 1].modified <= e.modified {
    } else {
      var front, last := files[..|files| - 1], files[|files| - 1];
      InsertedDistinct(front, e);
      var r := Inserted(front, e);
      forall i | 0 <= i < |r|
        ensures r[i].name != last.name
      {
        assert r[i] in multiset(r);
        assert r[i] in front || r[i] == e;
      }
    }
  }

  lemma ListedDistinct(dir: seq<Entry>)
    requires Distinct(dir)
    ensures Distinct(Listed(dir))
  {
    if dir != [] {
      var front, last := dir[..|dir| - 1], dir[|dir| - 1];
      ListedDistinct(front);
      if last.regular {
        ListedHas(front);
        forall f | f in Listed(front)
          ensures f.name != last.name
        {
          assert f in front;
        }
        InsertedDistinct(Listed(front), last);
      }
    }
  }

  /** The listing is sorted by age, has every regular file once, and weighs what the directory weighs. */
  lemma ListedIs(dir: seq<Entry>)
    ensures Sorted(Listed(dir)) && Usage(Listed(dir)) == Usage(dir)
    ensures forall e :: e in Listed(dir) <==> e in dir && e.regular
    ensures Distinct(dir) ==> Distinct(Listed(dir))
  {
    ListedSorted(dir);
    ListedWeighs(dir);
    ListedHas(dir);
    if Distinct(dir) {
      ListedDistinct(dir);
    }
  }

  lemma WithoutIs(dir: seq<Entry>, name: string)
    requires Distinct(dir)
    ensures Distinct(Without(dir, name))
    ensures forall e :: e in Without(dir, name) <==> e in dir && e.name != name
  {
    if dir != [] {
      var front, last := dir[..|dir| - 1], dir[|dir| - 1];
      WithoutIs(front, name);
      assert dir == front + [last];
      var r := Without(front, name);
      forall i | 0 <= i < |r|
        ensures r[i].name != last.name
      {
        assert r[i] in r;
        assert r[i] in front;
      }
    }
  }

  lemma WithoutNone(dir: seq<Entry>, name: string)
    requires forall i :: 0 <= i < |dir| ==> dir[i].name != name
    ensures Without(dir, name) == dir
  {
    if dir != [] {
      assert dir == dir[..|dir| - 1] + [dir[|dir| - 1]];
      WithoutNone(dir[..|dir| - 1], name);
    }
  }

  lemma WithoutUsage(dir: seq<Entry>, e: Entry)
    requires Distinct(dir) && e in dir && e.regular
    ensures Usage(Without(dir, e.name)) == Usage(dir) - e.bytes
  {
    var front, last := dir[..|dir| - 1], dir[|dir| - 1];
    assert dir == front + [last];
    if last.name == e.name {
      assert last == e by {
        var i :| 0 <= i < |dir| && dir[i] == e;
        assert i == |dir| - 1;
      }
      WithoutNone(front, e.name);
      assert Without(dir, e.name) == front;
    } else {
      assert e in front;
      WithoutUsage(front, e);
      var r := Without(front, e.name);
      assert (r + [last])[..|r|] == r;
    }
  }

  /** The entry of the open file after `n` more bytes. */
  function Grown(dir: seq<Entry>, name: string, n: nat, now: int): seq<Entry> {
    seq(|dir|, i requires 0 <= i < |dir| =>
      if dir[i].name == name then dir[i].(bytes := dir[i].bytes + n, modified := now) else dir[i])
  }

  lemma GrownUsage(dir: seq<Entry>, e: Entry, n: nat, now: int)
    requires Distinct(dir) && e in dir && e.regular
    ensures Usage(Grown(dir, e.name, n, now)) == Usage(dir) + n
  {
    var front, last := dir[..|dir| - 1], dir[|dir| - 1];
    var r := Grown(dir, e.name, n, now);
    assert r[..|dir| - 1] == Grown(front, e.name, n, now);
    if last.name == e.name {
      assert last == e by {
        var i :| 0 <= i < |dir| && dir[i] == e;
        assert i == |dir| - 1;
      }
      assert Grown(front, e.name, n, now) == front;
    } else {
      assert e in front by {
        assert dir == front + [last];
      }
      GrownUsage(front, e, n, now);
    }
  }

  // ---- Retention ----

  /** What a sweep may remove: its own settled logs, never the open one. */
  predicate Evictable(e: Entry, current: string, now: int) {
    e.regular && OwnerOf(e.name) == Managed && e.name != current && e.modified <= now - SETTLED_SECONDS
  }

  predicate Expired(e: Entry, now: int) {
    e.modified < now - RETENTION_SECONDS
  }

  predicate Pressed(dir: seq<Entry>, extra: nat, limits: Limits) {
    Usage(dir) + extra > limits.total
  }

  /** No evictable file that stays is older than an unexpired one that went. */
  predicate Oldest(before: seq<Entry>, after: seq<Entry>, current: string, now: int) {
    forall e, f :: e in before && e !in after && !Expired(e, now) && f in after && f in before && Evictable(f, current, now) ==>
      e.modified <= f.modified
  }

  /** The bytes of those of these files that are no longer there. */
  function GoneBytes(files: seq<Entry>, dir: seq<Entry>): nat {
    if files == [] then 0
    else GoneBytes(files[..|files| - 1], dir) + (if files[|files| - 1] in dir then 0 else files[|files| - 1].bytes)
  }

  /**
   Every unexpired file that went was over budget when its turn came: with it and whatever went after it
   still there, the directory had no room for what is incoming.
  */
  predicate Needed(files: seq<Entry>, k: nat, dir: seq<Entry>, incoming: nat, limits: Limits, now: int)
    requires k <= |files|
  {
    forall j :: 0 <= j < k && files[j] !in dir && !Expired(files[j], now) ==>
      Pressed(dir, GoneBytes(files[j..k], dir) + incoming, limits)
  }

  /** What a sweep did: only evictable files went, oldest first, and unexpired ones only while over budget. */
  predicate Swept(before: seq<Entry>, after: seq<Entry>, incoming: nat, limits: Limits, current: string, now: int) {
    && Distinct(after)
    && Usage(after) <= Usage(before)
    && (forall e :: e in after ==> e in before)
    && (forall e :: e in before && e !in after ==> Evictable(e, current, now))
    && Oldest(before, after, current, now)
    && Needed(Listed(before), |Listed(before)|, after, incoming, limits, now)
  }

  /** The open file is itself past its retention: a sweep closes it first. */
  predicate Stale(dir: seq<Entry>, current: string, now: int) {
    exists e :: e in dir && e.regular && e.name == current && Expired(e, now)
  }

  lemma SameName(dir: seq<Entry>, e: Entry, f: Entry)
    requires Distinct(dir) && e in dir && f in dir && e.name == f.name
    ensures e == f
  {
    var i :| 0 <= i < |dir| && dir[i] == e;
    var j :| 0 <= j < |dir| && dir[j] == f;
  }

  /** Removing one listed file leaves every other entry and takes exactly its bytes off the total. */
  lemma RemoveOne(dir: seq<Entry>, f: Entry)
    requires Distinct(dir) && f in dir && f.regular
    ensures Distinct(Without(dir, f.name)) && Usage(Without(dir, f.name)) == Usage(dir) - f.bytes
    ensures forall e :: e in Without(dir, f.name) <==> e in dir && e != f
  {
    WithoutIs(dir, f.name);
    WithoutUsage(dir, f);
    forall e | e in dir && e.name == f.name
      ensures e == f
    {
      SameName(dir, e, f);
    }
  }

  /** The files looked at so far, and why each of those that went had to. */
  predicate Sweeping(before: seq<Entry>, dir: seq<Entry>, files: seq<Entry>, k: nat,
                     incoming: nat, limits: Limits, current: string, now: int)
    requires k <= |files|
  {
    && Distinct(before) && files == Listed(before)
    && Distinct(dir) && Usage(dir) <= Usage(before)
    && (forall e :: e in dir ==> e in before)
    && (forall e :: e in before && e !in dir ==> e in files[..k] && Evictable(e, current, now))
    && Settled(dir, files, k, incoming, limits, current, now)
    && Needed(files, k, dir, incoming, limits, now)
  }

  /** An evictable file that stays is unexpired, the budget is met, and nothing newer goes. */
  predicate Settled(dir: seq<Entry>, files: seq<Entry>, k: nat, incoming: nat, limits: Limits, current: string, now: int)
    requires k <= |files|
  {
    && (forall j :: 0 <= j < k && Evictable(files[j], current, now) && files[j] in dir ==>
          !Expired(files[j], now) && !Pressed(dir, incoming, limits))
    && (forall i, j :: 0 <= i < j < k && Evictable(files[i], current, now) && files[i] in dir ==> files[j] in dir)
  }

  lemma NothingSwept(dir: seq<Entry>, incoming: nat, limits: Limits, current: string, now: int)
    requires Distinct(dir)
    ensures Swept(dir, dir, incoming, limits, current, now)
  {
    hide Usage, Listed, Evictable, Expired, Pressed;
    ListedIs(dir);
    forall j | 0 <= j < |Listed(dir)|
      ensures Listed(dir)[j] in dir
    {
      assert Listed(dir)[j] in Listed(dir);
    }
  }

  lemma SweepStarts(dir: seq<Entry>, incoming: nat, limits: Limits, current: string, now: int)
    requires Distinct(dir)
    ensures Sweeping(dir, dir, Listed(dir), 0, incoming, limits, current, now)
    ensures Usage(Listed(dir)) == Usage(dir)
  {
    ListedIs(dir);
  }

  lemma SweepKeeps(before: seq<Entry>, dir: seq<Entry>, files: seq<Entry>, k: nat,
                   incoming: nat, limits: Limits, current: string, now: int)
    requires k < |files| && Sweeping(before, dir, files, k, incoming, limits, current, now)
    requires !(Evictable(files[k], current, now) && (Expired(files[k], now) || Pressed(dir, incoming, limits)))
    ensures Sweeping(before, dir, files, k + 1, incoming, limits, current, now)
  {
    hide Evictable, Expired, Pressed, Usage, Listed, Needed;
    NextIsThere(before, dir, files, k, incoming, limits, current, now);
    KeepingNeeded(files, k, dir, incoming, limits, now);
    assert files[..k + 1] == files[..k] + [files[k]];
  }

  lemma GoneSame(files: seq<Entry>, a: seq<Entry>, b: seq<Entry>)
    requires forall e :: e in files ==> (e in a <==> e in b)
    ensures GoneBytes(files, a) == GoneBytes(files, b)
  {
    if files != [] {
      assert files == files[..|files| - 1] + [files[|files| - 1]];
      GoneSame(files[..|files| - 1], a, b);
    }
  }

  lemma GoneOneMore(files: seq<Entry>, j: nat, k: nat, dir: seq<Entry>)
    requires j <= k < |files|
    ensures GoneBytes(files[j..k + 1], dir) == GoneBytes(files[j..k], dir) + (if files[k] in dir then 0 else files[k].bytes)
  {
    assert files[j..k + 1][..k - j] == files[j..k];
  }

  lemma KeepingNeeded(files: seq<Entry>, k: nat, dir: seq<Entry>, incoming: nat, limits: Limits, now: int)
    requires k < |files| && files[k] in dir && Needed(files, k, dir, incoming, limits, now)
    ensures Needed(files, k + 1, dir, incoming, limits, now)
  {
    forall j | 0 <= j < k + 1 && files[j] !in dir && !Expired(files[j], now)
      ensures Pressed(dir, GoneBytes(files[j..k + 1], dir) + incoming, limits)
    {
      GoneOneMore(files, j, k, dir);
    }
  }

  /** Removing the next file moves its bytes from the directory to what has gone since each earlier one. */
  lemma RemovalNeeded(before: seq<Entry>, dir: seq<Entry>, files: seq<Entry>, k: nat,
                      incoming: nat, limits: Limits, current: string, now: int)
    requires k < |files| && Sweeping(before, dir, files, k, incoming, limits, current, now)
    requires Expired(files[k], now) || Pressed(dir, incoming, limits)
    requires forall e :: e in Without(dir, files[k].name) <==> e in dir && e != files[k]
    requires Usage(Without(dir, files[k].name)) == Usage(dir) - files[k].bytes
    ensures Needed(files, k + 1, Without(dir, files[k].name), incoming, limits, now)
  {
    hide Usage, Listed, Without, Evictable, Settled;
    var after := Without(dir, files[k].name);
    ListedDistinct(before);
    forall j | 0 <= j < k + 1 && files[j] !in after && !Expired(files[j], now)
      ensures Pressed(after, GoneBytes(files[j..k + 1], after) + incoming, limits)
    {
      GoneOneMore(files, j, k, after);
      if j < k {
        assert forall e :: e in files[j..k] ==> e != files[k];
        GoneSame(files[j..k], dir, after);
      }
    }
  }

  lemma NextIsThere(before: seq<Entry>, dir: seq<Entry>, files: seq<Entry>, k: nat,
                   incoming: nat, limits: Limits, current: string, now: int)
    requires k < |files| && Sweeping(before, dir, files, k, incoming, limits, current, now)
    ensures files[k] in dir && files[k] in before && files[k].regular
  {
    ListedIs(before);
    assert files[k] in files;
    assert files[k] !in files[..k];
  }

  lemma SweepRemoves(before: seq<Entry>, dir: seq<Entry>, files: seq<Entry>, k: nat,
                     incoming: nat, limits: Limits, current: string, now: int)
    requires k < |files| && Sweeping(before, dir, files, k, incoming, limits, current, now)
    requires Evictable(files[k], current, now) && (Expired(files[k], now) || Pressed(dir, incoming, limits))
    ensures Usage(Without(dir, files[k].name)) == Usage(dir) - files[k].bytes
    ensures Sweeping(before, Without(dir, files[k].name), files, k + 1, incoming, limits, current, now)
  {
    hide Evictable, Usage, Listed, Needed, Settled;
    var file := files[k];
    NextIsThere(before, dir, files, k, incoming, limits, current, now);
    RemoveOne(dir, file);
    assert files[..k + 1] == files[..k] + [file];
    RemovalSettles(before, dir, files, k, incoming, limits, current, now);
    RemovalNeeded(before, dir, files, k, incoming, limits, current, now);
  }

  lemma RemovalSettles(before: seq<Entry>, dir: seq<Entry>, files: seq<Entry>, k: nat,
                   incoming: nat, limits: Limits, current: string, now: int)
    requires k < |files| && Sweeping(before, dir, files, k, incoming, limits, current, now)
    requires Evictable(files[k], current, now) && (Expired(files[k], now) || Pressed(dir, incoming, limits))
    requires forall e :: e in Without(dir, files[k].name) <==> e in dir && e != files[k]
    requires Usage(Without(dir, files[k].name)) == Usage(dir) - files[k].bytes
    ensures Settled(Without(dir, files[k].name), files, k + 1, incoming, limits, current, now)
  {
    hide Evictable, Usage, Listed, Without;
    assert forall i :: 0 <= i < k && Evictable(files[i], current, now) && files[i] in dir ==> files[i].modified <= files[k].modified by {
      ListedIs(before);
    }
  }

  lemma SweepEnds(before: seq<Entry>, dir: seq<Entry>, files: seq<Entry>, k: nat,
                   incoming: nat, limits: Limits, current: string, now: int)
    requires k <= |files| && Sweeping(before, dir, files, k, incoming, limits, current, now)
    ensures Swept(before, dir, incoming, limits, current, now)
  {
    hide Usage, Listed, Evictable, Expired, Pressed, Needed, Settled, Oldest;
    OldestFirst(before, dir, files, k, incoming, limits, current, now);
    RestNeeded(before, dir, files, k, incoming, limits, current, now);
  }

  lemma NeededFurther(files: seq<Entry>, k: nat, m: nat, dir: seq<Entry>, incoming: nat, limits: Limits, now: int)
    requires k <= m <= |files| && Needed(files, k, dir, incoming, limits, now)
    requires forall i :: k <= i < m ==> files[i] in dir
    ensures Needed(files, m, dir, incoming, limits, now)
  {
    hide Needed;
    if k < m {
      NeededFurther(files, k, m - 1, dir, incoming, limits, now);
      KeepingNeeded(files, m - 1, dir, incoming, limits, now);
    }
  }

  /** A sweep that stopped early left the rest of the listing alone. */
  lemma RestNeeded(before: seq<Entry>, dir: seq<Entry>, files: seq<Entry>, k: nat,
                   incoming: nat, limits: Limits, current: string, now: int)
    requires k <= |files| && Sweeping(before, dir, files, k, incoming, limits, current, now)
    ensures Needed(files, |files|, dir, incoming, limits, now)
  {
    hide Usage, Listed, Evictable, Expired, Pressed, Needed, Settled;
    ListedIs(before);
    forall i | k <= i < |files|
      ensures files[i] in dir
    {
      assert files[i] in files;
      assert files[i] !in files[..k];
    }
    NeededFurther(files, k, |files|, dir, incoming, limits, now);
  }

  lemma OldestFirst(before: seq<Entry>, dir: seq<Entry>, files: seq<Entry>, k: nat,
                   incoming: nat, limits: Limits, current: string, now: int)
    requires k <= |files| && Sweeping(before, dir, files, k, incoming, limits, current, now)
    ensures Oldest(before, dir, current, now)
  {
    hide Usage, Listed, Expired, Pressed, OwnerOf, Needed, Distinct;
    ListedIs(before);
    forall e, f | e in before && e !in dir && !Expired(e, now) && f in dir && f in before && Evictable(f, current, now)
      ensures e.modified <= f.modified
    {
      var j :| 0 <= j < k && files[j] == e;
      assert f in files;
      var i :| 0 <= i < |files| && files[i] == f;
    }
  }

  lemma SweepClears(before: seq<Entry>, dir: seq<Entry>, files: seq<Entry>,
                    incoming: nat, limits: Limits, current: string, now: int)
    requires Sweeping(before, dir, files, |files|, incoming, limits, current, now)
    ensures forall e :: e in dir && Evictable(e, current, now) ==> !Expired(e, now) && !Pressed(dir, incoming, limits)
  {
    ListedIs(before);
    forall e | e in dir && Evictable(e, current, now)
      ensures !Expired(e, now) && !Pressed(dir, incoming, limits)
    {
      assert e in files;
      var i :| 0 <= i < |files| && files[i] == e;
    }
  }

  /** Putting the newest evicted log back would alone exceed the budget. */
  lemma NewestGoneWasNeeded(before: seq<Entry>, after: seq<Entry>, incoming: nat, limits: Limits, current: string,
                            now: int, k: nat) returns (newest: Entry)
    requires Distinct(before) && Swept(before, after, incoming, limits, current, now)
    requires k < |Listed(before)| && Listed(before)[k] !in after && !Expired(Listed(before)[k], now)
    ensures newest in before && newest !in after && !Expired(newest, now) && newest.modified >= Listed(before)[k].modified
    ensures Pressed(after, newest.bytes + incoming, limits)
    decreases |Listed(before)| - k
  {
    hide Usage, Listed, Evictable, Oldest;
    var files := Listed(before);
    ListedIs(before);
    if m :| k < m < |files| && files[m] !in after {
      newest := NewestGoneWasNeeded(before, after, incoming, limits, current, now, m);
    } else {
      newest := files[k];
      assert newest in files;
      StaysWeighNothing(files, k, |files|, after);
    }
  }

  lemma {:induction false} StaysWeighNothing(files: seq<Entry>, k: nat, m: nat, dir: seq<Entry>)
    requires k < m <= |files| && files[k] !in dir && forall i :: k < i < m ==> files[i] in dir
    ensures GoneBytes(files[k..m], dir) == files[k].bytes
  {
    GoneOneMore(files, k, m - 1, dir);
    if k < m - 1 {
      StaysWeighNothing(files, k, m - 1, dir);
    } else {
      assert files[k..k] == [];
    }
  }

  // ---- What one retention pass may take ----

  /** A pass spares the open file unless it is itself past its retention. */
  predicate Pass(before: seq<Entry>, after: seq<Entry>, incoming: nat, limits: Limits, current: string, now: int) {
    || Swept(before, after, incoming, limits, current, now)
    || (Stale(before, current, now) && Swept(before, after, incoming, limits, "", now))
  }

  /** What is still there of these files and what has gone weigh what they all weigh. */
  lemma {:induction false} GoneIsPart(files: seq<Entry>, dir: seq<Entry>)
    requires Distinct(files) && forall e :: e in files ==> e.regular
    requires Distinct(dir) && forall e :: e in dir && e.regular ==> e in files
    ensures Usage(dir) + GoneBytes(files, dir) == Usage(files)
    decreases files, 1
  {
    if files == [] {
      NoneListed(dir);
    } else {
      var front, last := files[..|files| - 1], files[|files| - 1];
      LastApart(files);
      if last in dir {
        GoneIsPartOf(files, dir);
      } else {
        hide Usage, GoneBytes;
        GoneIsPart(front, dir);
        LastGone(files, dir);
      }
    }
  }

  lemma LastApart(files: seq<Entry>)
    requires files != [] && Distinct(files)
    ensures var front := files[..|files| - 1];
            Distinct(front) && forall e :: e in files <==> e in front || e == files[|files| - 1]
    ensures forall e :: e in files[..|files| - 1] ==> e.name != files[|files| - 1].name
  {
    assert files == files[..|files| - 1] + [files[|files| - 1]];
  }

  lemma LastGone(files: seq<Entry>, dir: seq<Entry>)
    requires files != [] && files[|files| - 1].regular && files[|files| - 1] !in dir
    ensures GoneBytes(files, dir) == GoneBytes(files[..|files| - 1], dir) + files[|files| - 1].bytes
    ensures Usage(files) == Usage(files[..|files| - 1]) + files[|files| - 1].bytes
  {
  }

  lemma LastStays(files: seq<Entry>, dir: seq<Entry>)
    requires files != [] && files[|files| - 1].regular && files[|files| - 1] in dir
    ensures GoneBytes(files, dir) == GoneBytes(files[..|files| - 1], dir)
    ensures Usage(files) == Usage(files[..|files| - 1]) + files[|files| - 1].bytes
  {
  }

  lemma {:induction false} GoneIsPartOf(files: seq<Entry>, dir: seq<Entry>)
    requires files != [] && files[|files| - 1] in dir
    requires Distinct(files) && forall e :: e in files ==> e.regular
    requires Distinct(dir) && forall e :: e in dir && e.regular ==> e in files
    ensures Usage(dir) + GoneBytes(files, dir) == Usage(files)
    decreases files, 0
  {
    hide Usage, GoneBytes, Without;
    var front, last := files[..|files| - 1], files[|files| - 1];
    LastApart(files);
    RemoveOne(dir, last);
    var rest := Without(dir, last.name);
    GoneSame(front, dir, rest);
    GoneIsPart(front, rest);
    LastStays(files, dir);
  }

  lemma {:induction false} NoneListed(dir: seq<Entry>)
    requires forall e :: e in dir ==> !e.regular
    ensures Usage(dir) == 0
  {
    if dir != [] {
      assert dir == dir[..|dir| - 1] + [dir[|dir| - 1]];
      NoneListed(dir[..|dir| - 1]);
    }
  }

  lemma GoneLess(files: seq<Entry>, j: nat, dir: seq<Entry>)
    requires j <= |files|
    ensures GoneBytes(files[j..], dir) <= GoneBytes(files, dir)
  {
    if j < |files| {
      assert files[j..][..|files| - j - 1] == files[..|files| - 1][j..];
      GoneLess(files[..|files| - 1], j, dir);
    } else {
      assert files[j..] == [];
    }
  }

  lemma EvictableIsRegular(e: Entry, current: string, now: int)
    ensures Evictable(e, current, now) ==> e.regular
  {
  }

  lemma SweptLaw(before: seq<Entry>, after: seq<Entry>, incoming: nat, limits: Limits, current: string, now: int, e: Entry)
    returns (k: nat)
    requires Distinct(before) && Swept(before, after, incoming, limits, current, now) && e in before && e !in after
    ensures Evictable(e, current, now) && k < |Listed(before)| && Listed(before)[k] == e
    ensures Expired(e, now) || Pressed(after, GoneBytes(Listed(before)[k..], after) + incoming, limits)
    ensures Expired(e, now) || Usage(before) + incoming > limits.total
  {
    hide Usage, Listed, OwnerOf, Oldest, Expired, Evictable;
    var files := Listed(before);
    ListedIs(before);
    EvictableIsRegular(e, current, now);
    assert e in files;
    k :| 0 <= k < |files| && files[k] == e;
    assert files[k..|files|] == files[k..];
    GoneLess(files, k, after);
    GoneIsPart(files, after);
  }

  /**
   Whatever a pass takes is a settled log of this store; it is older than seven days, or with it and every
   later file that went the directory was over its budget. With room for what is incoming, only age counts.
  */
  lemma PassLaw(before: seq<Entry>, after: seq<Entry>, incoming: nat, limits: Limits, current: string, now: int, e: Entry)
    returns (k: nat)
    requires Distinct(before) && Pass(before, after, incoming, limits, current, now) && e in before && e !in after
    ensures e.regular && OwnerOf(e.name).Managed? && e.modified <= now - 60
    ensures e.name == current ==> e.modified < now - 7 * 86400
    ensures e.modified < now - 7 * 86400 || Usage(before) + incoming > limits.total
    ensures k < |Listed(before)| && Listed(before)[k] == e
    ensures Expired(e, now) || Pressed(after, GoneBytes(Listed(before)[k..], after) + incoming, limits)
  {
    hide Usage, Listed, OwnerOf, Swept, GoneBytes;
    if Swept(before, after, incoming, limits, current, now) {
      k := SweptLaw(before, after, incoming, limits, current, now, e);
    } else {
      k := SweptLaw(before, after, incoming, limits, "", now, e);
      var wasOpen :| wasOpen in before && wasOpen.regular && wasOpen.name == current && Expired(wasOpen, now);
      if e.name == current {
        SameName(before, e, wasOpen);
      }
    }
  }

  /** A pass with room for what is incoming leaves every log that is not past its retention. */
  lemma RoomyPass(before: seq<Entry>, after: seq<Entry>, incoming: nat, limits: Limits, current: string, now: int)
    requires Distinct(before) && Pass(before, after, incoming, limits, current, now)
    requires Usage(before) + incoming <= limits.total
    ensures forall e :: e in before && !Expired(e, now) ==> e in after
  {
    hide Usage, Listed, OwnerOf, Pass;
    forall e | e in before && !Expired(e, now)
      ensures e in after
    {
      if e !in after {
        var _ := PassLaw(before, after, incoming, limits, current, now, e);
      }
    }
  }

  lemma {:induction false} DistinctFits(a: seq<Entry>, b: seq<Entry>)
    requires Distinct(a) && forall e :: e in a ==> e in b
    ensures |a| <= |b|
  {
    if a != [] {
      var front, last := a[..|a| - 1], a[|a| - 1];
      assert a == front + [last] && last in a;
      var i :| 0 <= i < |b| && b[i] == last;
      var rest := b[..i] + b[i + 1..];
      forall e | e in front
        ensures e in rest
      {
        assert e in a;
        var j :| 0 <= j < |b| && b[j] == e;
        assert e != last;
        assert j < i ==> rest[j] == e;
        assert j > i ==> rest[j - 1] == e;
      }
      DistinctFits(front, rest);
    }
  }

  lemma FewerListed(before: seq<Entry>, after: seq<Entry>)
    requires Distinct(before) && Distinct(after) && forall e :: e in after ==> e in before
    ensures |Listed(after)| <= |Listed(before)|
  {
    hide Listed, Usage;
    ListedIs(before);
    ListedIs(after);
    DistinctFits(Listed(after), Listed(before));
  }

  /**
   What a write may do to the rest of the directory: one pass for the line, one for a new part, and then
   only the file written to changes. A clean stop also removes the session marker.
  */
  predicate Retained(before: seq<Entry>, first: seq<Entry>, second: seq<Entry>, after: seq<Entry>,
                     length: nat, limits: Limits, wasOpen: string, written: string, now: int)
  {
    && Pass(before, first, length, limits, wasOpen, now)
    && Swept(first, second, limits.file, limits, "", now)
    && (forall e :: e in second && e.name != written && e.name != ".session-active" ==> e in after)
    && (forall e :: e in after && e.name != written ==> e in second)
  }

  lemma AsBefore(dir: seq<Entry>, length: nat, limits: Limits, current: string, now: int)
    requires Distinct(dir)
    ensures Retained(dir, dir, dir, dir, length, limits, current, current, now)
  {
    hide Swept;
    NothingSwept(dir, length, limits, current, now);
    NothingSwept(dir, limits.file, limits, "", now);
  }

  /** A write into a directory with room for one more part costs no log that is not past its retention. */
  lemma RoomyWrite(before: seq<Entry>, first: seq<Entry>, second: seq<Entry>, after: seq<Entry>,
                   length: nat, limits: Limits, wasOpen: string, written: string, now: int)
    requires Distinct(before) && Retained(before, first, second, after, length, limits, wasOpen, written, now)
    requires length <= limits.file && Usage(before) + limits.file <= limits.total
    ensures forall e :: e in before && !Expired(e, now) ==> e in second
  {
    hide Usage, Expired, Listed, Evictable, Oldest, Needed, Stale;
    assert Distinct(first) && Usage(first) <= Usage(before);
    RoomyPass(before, first, length, limits, wasOpen, now);
    RoomyPass(first, second, limits.file, limits, "", now);
  }

  /** The bytes that a run of calls may add. */
  function Lines(calls: seq<Call>): nat {
    if calls == [] then 0
    else Lines(calls[..|calls| - 1]) + (if calls[|calls| - 1].Store? then calls[|calls| - 1].rec.len + 1 else 0)
  }

  lemma {:induction false} LinesGrow(calls: seq<Call>, i: nat)
    requires i <= |calls|
    ensures Lines(calls[..i]) <= Lines(calls)
  {
    if i == |calls| {
      assert calls[..i] == calls;
    } else {
      LinesGrow(calls[..|calls| - 1], i);
      assert calls[..|calls| - 1][..i] == calls[..i];
    }
  }

  lemma NoLines()
    ensures Lines([]) == 0
  {
  }

  lemma LinesNext(calls: seq<Call>, i: nat)
    requires i < |calls|
    ensures Lines(calls[..i + 1]) == Lines(calls[..i]) + (if calls[i].Store? then calls[i].rec.len + 1 else 0)
    ensures Lines(calls[..i + 1]) <= Lines(calls)
  {
    assert calls[..i + 1][..i] == calls[..i];
    LinesGrow(calls, i + 1);
  }

  /** A log, other than the one open at first, that no reading of the clock in these calls finds too old. */
  predicate Lasts(e: Entry, calls: seq<Call>, initial: string) {
    && OwnerOf(e.name).Managed? && e.name != initial
    && forall c :: c in calls && !c.Wipe? ==> !Expired(e, c.now)
  }

  lemma ManagedName(name: string)
    ensures OwnerOf(name).Managed? ==> name != "" && name != ".session-active" && name != ".owner.lock"
  {
    MarkerIsNoLog();
  }

  lemma LastingPass(before: seq<Entry>, after: seq<Entry>, incoming: nat, limits: Limits, current: string, now: int,
                    calls: seq<Call>, initial: string)
    requires Distinct(before) && Pass(before, after, incoming, limits, current, now)
    requires Usage(before) + incoming <= limits.total && exists c :: c in calls && !c.Wipe? && c.now == now
    ensures forall e :: e in before && Lasts(e, calls, initial) ==> e in after && e.name != ""
  {
    hide Usage, Pass, Expired;
    RoomyPass(before, after, incoming, limits, current, now);
    forall e | e in before && Lasts(e, calls, initial)
      ensures e in after && e.name != ""
    {
      ManagedName(e.name);
    }
  }

  lemma LastingWrite(before: seq<Entry>, first: seq<Entry>, second: seq<Entry>, after: seq<Entry>, length: nat,
                     limits: Limits, wasOpen: string, written: string, now: int, calls: seq<Call>, initial: string)
    requires Distinct(before) && Retained(before, first, second, after, length, limits, wasOpen, written, now)
    requires length <= limits.file && Usage(before) + limits.file <= limits.total
    requires written == wasOpen || written == "" || Absent(second, written)
    requires exists c :: c in calls && c.Store? && c.now == now
    ensures forall e :: e in before && e.name != wasOpen && Lasts(e, calls, initial) ==> e in after && e.name != written
  {
    hide Usage, Pass, Swept, Expired;
    RoomyWrite(before, first, second, after, length, limits, wasOpen, written, now);
    forall e | e in before && e.name != wasOpen && Lasts(e, calls, initial)
      ensures e in after && e.name != written
    {
      ManagedName(e.name);
    }
  }

  lemma OldLogs(dir: seq<Entry>, current: string, now: int)
    ensures forall e :: e in dir && e.regular && OwnerOf(e.name).Managed? && e.name != current ==>
              && (e.modified < now - 7 * 86400 ==> Evictable(e, current, now) && Expired(e, now))
              && (e.modified <= now - 60 ==> Evictable(e, current, now))
  {
    hide OwnerOf;
  }

  /** The open file is listed, as long as what was written to it, and the rest leaves room to fill it. */
  predicate Fits(dir: seq<Entry>, current: string, bytes: nat, limits: Limits) {
    && (exists e :: e in dir && e.regular && e.name == current && e.bytes == bytes)
    && Usage(dir) + limits.file <= limits.total + bytes && bytes <= limits.file
    && OwnerOf(current).Managed?
  }

  lemma SweptFits(before: seq<Entry>, after: seq<Entry>, incoming: nat, limits: Limits, current: string, now: int,
                  bytes: nat)
    requires Swept(before, after, incoming, limits, current, now) && Fits(before, current, bytes, limits)
    ensures Fits(after, current, bytes, limits)
  {
    hide Usage, OwnerOf;
    var e :| e in before && e.regular && e.name == current && e.bytes == bytes;
    assert !Evictable(e, current, now);
    assert e in after;
  }

  predicate Absent(dir: seq<Entry>, name: string) {
    forall e :: e in dir ==> e.name != name
  }

  lemma NewFits(dir: seq<Entry>, name: string, now: int, limits: Limits)
    requires Distinct(dir) && Absent(dir, name) && OwnerOf(name).Managed? && !Pressed(dir, limits.file, limits)
    ensures var more := dir + [Entry(name, 0, now, true)];
            Distinct(more) && Fits(more, name, 0, limits) && Usage(more) == Usage(dir)
  {
    hide OwnerOf;
    var e := Entry(name, 0, now, true);
    var more := dir + [e];
    assert more[|dir|] == e && more[..|dir|] == dir;
    forall i | 0 <= i < |dir|
      ensures dir[i].name != name
    {
      assert dir[i] in dir;
    }
  }

  lemma GrownIs(dir: seq<Entry>, name: string, n: nat, now: int)
    requires Distinct(dir)
    ensures Distinct(Grown(dir, name, n, now))
    ensures forall e :: e in dir && e.name != name ==> e in Grown(dir, name, n, now)
    ensures forall e :: e in Grown(dir, name, n, now) && e.name != name ==> e in dir
    ensures forall e :: e in dir && e.name == name ==> e.(bytes := e.bytes + n, modified := now) in Grown(dir, name, n, now)
  {
    var r := Grown(dir, name, n, now);
    forall e | e in dir
      ensures (if e.name == name then e.(bytes := e.bytes + n, modified := now) else e) in r
    {
      var i :| 0 <= i < |dir| && dir[i] == e;
      assert r[i] == if e.name == name then e.(bytes := e.bytes + n, modified := now) else e;
    }
  }

  /** Writing `n` bytes to the open file, all of them or a part. */
  lemma GrownFits(dir: seq<Entry>, current: string, bytes: nat, limits: Limits, n: nat, now: int)
    requires Distinct(dir) && Fits(dir, current, bytes, limits) && bytes + n <= limits.file
    ensures Fits(Grown(dir, current, n, now), current, bytes + n, limits)
    ensures Usage(Grown(dir, current, n, now)) <= limits.total
    ensures Usage(Grown(dir, current, n, now)) == Usage(dir) + n
  {
    hide Usage, OwnerOf;
    var e :| e in dir && e.regular && e.name == current && e.bytes == bytes;
    GrownUsage(dir, e, n, now);
    GrownIs(dir, current, n, now);
    assert e.(bytes := e.bytes + n, modified := now) in Grown(dir, current, n, now);
  }

  /** Only this store's logs may differ. */
  predicate Spares(before: seq<Entry>, after: seq<Entry>) {
    forall e :: e in before && !(e.regular && OwnerOf(e.name).Managed?) ==> e in after
  }

  lemma SweptSpares(before: seq<Entry>, after: seq<Entry>, incoming: nat, limits: Limits, current: string, now: int)
    requires Swept(before, after, incoming, limits, current, now)
    ensures Spares(before, after) && Usage(after) <= Usage(before)
  {
    hide Usage, Needed, Oldest;
  }

  lemma SweptWithin(before: seq<Entry>, after: seq<Entry>, incoming: nat, limits: Limits, current: string, now: int)
    requires Distinct(before) && Swept(before, after, incoming, limits, current, now)
    ensures (forall e :: e in after ==> e in before) && Distinct(after) && Usage(after) <= Usage(before)
    ensures |Listed(after)| <= |Listed(before)|
  {
    hide Usage, Listed, Needed, Oldest, Evictable;
    FewerListed(before, after);
  }

  lemma RemovalSpares(before: seq<Entry>, dir: seq<Entry>, f: Entry)
    requires Distinct(dir) && f in dir && f.regular && OwnerOf(f.name).Managed? && Spares(before, dir)
    ensures Spares(before, Without(dir, f.name))
  {
    hide OwnerOf;
    RemoveOne(dir, f);
  }

  lemma GrownSpares(dir: seq<Entry>, current: string, bytes: nat, limits: Limits, n: nat, now: int)
    requires Distinct(dir) && Fits(dir, current, bytes, limits)
    ensures Spares(dir, Grown(dir, current, n, now))
  {
    hide Usage, OwnerOf;
    GrownIs(dir, current, n, now);
  }

  /** As `Spares`, except that a clean stop removes the session marker. */
  predicate SparesOthers(before: seq<Entry>, after: seq<Entry>) {
    forall e :: e in before && !(e.regular && OwnerOf(e.name).Managed?) && e.name != ".session-active" ==> e in after
  }

  lemma SparesMore(before: seq<Entry>, after: seq<Entry>)
    requires Spares(before, after)
    ensures SparesOthers(before, after)
  {
  }

  function Dg(n: nat): char {
    ((n % 10) as char) + '0'
  }

  function Six(n: nat): string {
    [Dg(n / 100000), Dg(n / 10000), Dg(n / 1000), Dg(n / 100), Dg(n / 10), Dg(n)]
  }

  /** The number that decimal digits spell. */
  function Number(digits: string): int {
    if digits == "" then 0 else Number(digits[..|digits| - 1]) * 10 + (digits[|digits| - 1] as int - '0' as int)
  }

  lemma NumberOfSix(a: char, b: char, c: char, d: char, e: char, f: char)
    ensures Number([a, b, c, d, e, f]) == (((((a as int - 48) * 10 + (b as int - 48)) * 10 + (c as int - 48)) * 10
                                            + (d as int - 48)) * 10 + (e as int - 48)) * 10 + (f as int - 48)
  {
    NumberNext("", a);
    NumberNext([a], b);
    NumberNext([a, b], c);
    NumberNext([a, b, c], d);
    NumberNext([a, b, c, d], e);
    NumberNext([a, b, c, d, e], f);
    assert "" + [a] == [a] && [a] + [b] == [a, b] && [a, b] + [c] == [a, b, c] && [a, b, c] + [d] == [a, b, c, d];
    assert [a, b, c, d] + [e] == [a, b, c, d, e] && [a, b, c, d, e] + [f] == [a, b, c, d, e, f];
  }

  lemma NumberNext(digits: string, c: char)
    ensures Number(digits + [c]) == Number(digits) * 10 + (c as int - 48)
  {
    assert (digits + [c])[..|digits|] == digits;
  }

  /** The six digits spell the part, so no two parts of a session share a name. */
  lemma PartsAreTold(session: string, a: nat, b: nat)
    requires a <= MAX_PART && b <= MAX_PART
    ensures Number(Six(a)) == a && |Six(a)| == 6
    ensures PartName(session, Six(a)) == PartName(session, Six(b)) ==> a == b
  {
    var x, y := Six(a), Six(b);
    NumberOfSix(x[0], x[1], x[2], x[3], x[4], x[5]);
    NumberOfSix(y[0], y[1], y[2], y[3], y[4], y[5]);
    assert x == [x[0], x[1], x[2], x[3], x[4], x[5]] && y == [y[0], y[1], y[2], y[3], y[4], y[5]];
    SixDigits(a);
    SixDigits(b);
    var head := "wenyi-" + session + "-";
    assert PartName(session, x)[|head|..|head| + 6] == x && PartName(session, y)[|head|..|head| + 6] == y;
  }

  lemma SixDigits(n: nat)
    requires n <= MAX_PART
    ensures n == ((((n / 100000 % 10 * 10 + n / 10000 % 10) * 10 + n / 1000 % 10) * 10 + n / 100 % 10) * 10
                  + n / 10 % 10) * 10 + n % 10
  {
    assert n / 10 / 10 == n / 100 && n / 100 / 10 == n / 1000 && n / 1000 / 10 == n / 10000;
    assert n / 10000 / 10 == n / 100000 && n / 100000 < 10;
  }

  lemma CreatedIsManaged(session: string, part: nat)
    requires Identity(session)
    ensures OwnerOf(PartName(session, Six(part))).Managed?
  {
    CreatedIsOwned(session, Six(part));
  }

  /** The last 256 records. */
  function Ring(records: seq<Rec>): seq<Rec> {
    if |records| > MEMORY_RECORDS then records[|records| - MEMORY_RECORDS..] else records
  }

  lemma MarkerIsNoLog()
    ensures OwnerOf(".session-active").Bookkeeping? && OwnerOf(".owner.lock").Bookkeeping?
  {
  }

  lemma WithoutLess(dir: seq<Entry>, name: string)
    ensures Usage(Without(dir, name)) <= Usage(dir)
  {
    if dir != [] {
      var front, last := dir[..|dir| - 1], dir[|dir| - 1];
      WithoutLess(front, name);
      var r := Without(front, name);
      assert (r + [last])[..|r|] == r && r + [] == r;
    }
  }

  lemma RemovedFits(dir: seq<Entry>, name: string, current: string, bytes: nat, limits: Limits)
    requires Distinct(dir) && Fits(dir, current, bytes, limits) && !OwnerOf(name).Managed?
    ensures Distinct(Without(dir, name)) && Fits(Without(dir, name), current, bytes, limits)
    ensures Usage(Without(dir, name)) <= Usage(dir)
    ensures forall e: Entry :: e.name != name ==> (e in dir <==> e in Without(dir, name))
    ensures Absent(Without(dir, name), name)
  {
    hide OwnerOf;
    WithoutIs(dir, name);
    WithoutLess(dir, name);
  }

  datatype Call = Store(rec: Rec, now: int) | Wait(now: int) | Wipe

  datatype Rec = Rec(len: nat, stopped: bool)

  class Store {
    const limits: Limits
    const session: string
    var dir: seq<Entry>
    var rooted: bool
    var open: bool
    var openedAt: int
    var current: string
    var bytes: nat
    var part: nat
    var maintained: int
    var retryAt: int
    var memory: seq<Rec>
    var degraded: bool

    ghost predicate Valid()
      reads this
    {
      && Distinct(dir) && Identity(session) && |memory| <= MEMORY_RECORDS
      && (open ==> rooted && Fits(dir, current, bytes, limits))
    }

    /** What still holds after a failed write, whose caller drops the file. */
    ghost predicate Closed()
      reads this
    {
      Distinct(dir) && Identity(session) && |memory| <= MEMORY_RECORDS
    }

    /** `files`: every regular file, oldest first, or an error beyond 4096 of them. */
    method Files(steady: bool) returns (r: Report, files: seq<Entry>)
      requires Distinct(dir)
      ensures r.Ok? ==> files == if rooted then Listed(dir) else []
      ensures r.Ok? || r.TooMany? || (r.Fault? && !steady)
      ensures rooted && r.Ok? ==> |Listed(dir)| <= MAX_FILES
      ensures r.TooMany? ==> rooted && |Listed(dir)| > MAX_FILES
    {
      files := [];
      if !rooted {
        return Ok, [];
      }
      var i := 0;
      while i < |dir|
        invariant 0 <= i <= |dir|
        invariant files == Listed(dir[..i]) && |files| <= MAX_FILES
      {
        var fault: bool := *;
        if fault && !steady {
          return Report.Fault, files;
        }
        assert dir[..i + 1][..i] == dir[..i];
        if dir[i].regular {
          files := Inserted(files, dir[i]);
          if |files| > MAX_FILES {
            ListedGrows(dir, i + 1);
            return TooMany, files;
          }
        }
        i := i + 1;
      }
      assert dir[..i] == dir;
      return Ok, files;
    }

    /** The removal loop of `maintain`, over a listing of the directory. */
    method Sweep(files: seq<Entry>, incoming: nat, now: int, steady: bool) returns (r: Report, total: nat)
      requires Distinct(dir) && files == Listed(dir)
      modifies this`dir
      ensures Swept(old(dir), dir, incoming, limits, current, now) && total == Usage(dir)
      ensures r.Ok? || (r.Fault? && !steady)
      ensures r.Ok? ==> forall e :: e in dir && Evictable(e, current, now) ==>
                !Expired(e, now) && !Pressed(dir, incoming, limits)
    {
      hide Evictable, Expired, Sweeping, Swept, Listed, Usage;
      ghost var before := dir;
      total := Usage(files);
      SweepStarts(dir, incoming, limits, current, now);
      var k := 0;
      while k < |files|
        invariant 0 <= k <= |files|
        invariant total == Usage(dir)
        invariant Sweeping(before, dir, files, k, incoming, limits, current, now)
      {
        var file := files[k];
        if Evictable(file, current, now) && (Expired(file, now) || total + incoming > limits.total) {
          var fault: bool := *;
          if fault && !steady {
            SweepEnds(before, dir, files, k, incoming, limits, current, now);
            return Report.Fault, total;
          }
          SweepRemoves(before, dir, files, k, incoming, limits, current, now);
          dir := Without(dir, file.name);
          total := total - file.bytes;
        } else {
          SweepKeeps(before, dir, files, k, incoming, limits, current, now);
        }
        k := k + 1;
      }
      SweepEnds(before, dir, files, k, incoming, limits, current, now);
      SweepClears(before, dir, files, incoming, limits, current, now);
      return Ok, total;
    }

    /** `maintain`: retention and the budget, with room for `incoming` more bytes. */
    method Maintain(incoming: nat, now: int, steady: bool) returns (r: Report)
      requires Valid()
      modifies this`dir, this`open, this`current, this`maintained
      ensures Valid()
      ensures r.Ok? || r.OverLimit? || r.TooMany? || (r.Fault? && !steady)
      ensures Swept(old(dir), dir, incoming, limits, current, now) && (!rooted ==> dir == old(dir))
      ensures current == old(current) || (current == "" && Stale(old(dir), old(current), now))
      ensures open ==> old(open) && current == old(current)
      ensures old(open) && !open ==> Stale(old(dir), old(current), now)
      ensures r.Ok? && open ==> !Stale(old(dir), current, now)
      ensures r.Ok? && rooted ==> !Pressed(dir, incoming, limits)
      ensures r.Ok? && rooted ==> forall e :: e in dir && Evictable(e, current, now) ==> !Expired(e, now)
      ensures r.OverLimit? && rooted ==> Pressed(dir, incoming, limits)
      ensures r.OverLimit? && rooted ==> forall e :: e in dir ==> !Evictable(e, current, now)
      ensures r.TooMany? ==> |Listed(old(dir))| > MAX_FILES
      ensures r.Ok? && rooted ==> forall e :: e in dir && e.regular && OwnerOf(e.name).Managed? && e.name != current ==>
                e.modified >= now - 7 * 86400
      ensures r.OverLimit? && rooted ==> forall e :: e in dir && e.regular && OwnerOf(e.name).Managed? && e.name != current ==>
                e.modified > now - 60
      ensures r.Ok? ==> maintained == now
    {
      hide Usage, Listed, Fits, Evictable, Expired, OwnerOf, Needed, Oldest;
      var files;
      r, files := Files(steady);
      ListedIs(dir);
      NothingSwept(dir, incoming, limits, current, now);
      if !r.Ok? {
        return;
      }
      var total := Usage(files);
      if exists f :: f in files && f.name == current && Expired(f, now) {
        open := false;
        current := "";
        NothingSwept(dir, incoming, limits, current, now);
      }
      if rooted {
        ghost var before := dir;
        r, total := Sweep(files, incoming, now, steady);
        if open {
          SweptFits(before, dir, incoming, limits, current, now, bytes);
        }
        OldLogs(dir, current, now);
        if !r.Ok? {
          return;
        }
      }
      if total + incoming > limits.total {
        return OverLimit;
      }
      maintained := now;
    }

    /** A new part file, which no existing entry may already be. */
    method Create(now: int, steady: bool) returns (r: Report)
      requires Closed() && rooted && !open && !Pressed(dir, limits.file, limits)
      modifies this`dir, this`open, this`current, this`openedAt, this`bytes, this`part
      ensures Valid() && Spares(old(dir), dir) && Usage(dir) <= Usage(old(dir))
      ensures r.Ok? <==> open
      ensures r.Ok? ==> bytes == 0 && Absent(old(dir), current) && part == old(part) + 1 && openedAt == now
      ensures r.Ok? ==> current == PartName(session, Six(part))
      ensures dir == if r.Ok? then old(dir) + [Entry(current, 0, now, true)] else old(dir)
      ensures !r.Ok? ==> current == old(current)
      ensures r.RotationLimit? <==> old(part) >= MAX_PART
      ensures r.NameTaken? <==> old(part) < MAX_PART && !Absent(old(dir), PartName(session, Six(old(part) + 1)))
      ensures r.Ok? || r.RotationLimit? || r.NameTaken? || (r.Fault? && !steady)
    {
      hide Usage, OwnerOf, Fits, PartName;
      part := part + 1;
      if part > MAX_PART {
        return RotationLimit;
      }
      var name := PartName(session, Six(part));
      if exists e :: e in dir && e.name == name {
        return NameTaken;
      }
      var fault: bool := *;
      if fault && !steady {
        return Report.Fault;
      }
      CreatedIsManaged(session, part);
      NewFits(dir, name, now, limits);
      dir := dir + [Entry(name, 0, now, true)];
      open, openedAt, current, bytes := true, now, name, 0;
      return Ok;
    }

    /** The next part file, once retention has made room for a whole one. `kept` is what retention left. */
    method Rotate(now: int, steady: bool) returns (r: Report, ghost kept: seq<Entry>)
      requires Valid() && rooted
      modifies this`dir, this`open, this`current, this`maintained, this`openedAt, this`bytes, this`part
      ensures Valid() && Spares(old(dir), dir) && Usage(dir) <= Usage(old(dir))
      ensures Swept(old(dir), kept, limits.file, limits, "", now)
      ensures dir == if r.Ok? then kept + [Entry(current, 0, now, true)] else kept
      ensures r.Ok? <==> open
      ensures r.Ok? ==> bytes == 0 && part == old(part) + 1 && openedAt == now && maintained == now
      ensures if r.Ok? then Absent(kept, current) else current == "" && !r.NoDirectory?
      ensures r.Fault? ==> !steady
      ensures steady && old(Startable(dir)) && old(part) < MAX_PART ==> r.Ok?
    {
      hide Usage, OwnerOf, Fits, PartName, Swept, Listed, Evictable, Expired, Stale, Six;
      open := false;
      current := "";
      r := Maintain(limits.file, now, steady);
      kept := dir;
      SweptSpares(old(dir), dir, limits.file, limits, current, now);
      SweptWithin(old(dir), dir, limits.file, limits, current, now);
      if r.Ok? {
        r := Create(now, steady);
      }
    }

    /** Nothing but a fault of the system keeps the next part from being created here. */
    ghost predicate Startable(entries: seq<Entry>)
      reads this`part
    {
      && |Listed(entries)| <= MAX_FILES && Usage(entries) + limits.file <= limits.total
      && Absent(entries, PartName(session, Six(part + 1)))
    }

    /** Unbuffered: a failure may leave any part of the line behind, and the caller then drops the file. */
    method PutLine(length: nat, now: int, steady: bool) returns (r: Report)
      requires Valid() && open && bytes + length <= limits.file
      modifies this`dir, this`bytes
      ensures Closed() && Spares(old(dir), dir) && Usage(dir) <= limits.total
      ensures Usage(dir) <= Usage(old(dir)) + length
      ensures forall e: Entry :: e.name != current ==> (e in dir <==> e in old(dir))
      ensures r.Ok? ==> dir == Grown(old(dir), current, length, now)
      ensures r.Ok? ==> Valid() && bytes == old(bytes) + length
      ensures !r.Ok? ==> r.Fault? && !steady
    {
      hide Usage, OwnerOf, Fits;
      var done: nat := length;
      r := Ok;
      var fault: bool := *;
      if fault && !steady {
        done := *;
        if done > length {
          done := 0;
        }
        r := Report.Fault;
      }
      GrownFits(dir, current, bytes, limits, done, now);
      GrownIs(dir, current, done, now);
      GrownSpares(dir, current, bytes, limits, done, now);
      dir := Grown(dir, current, done, now);
      if r.Ok? {
        bytes := bytes + done;
      }
    }

    /**
     `append`: retention once a minute, rotation when needed, then one line. `first` and `second` are what
     the two passes of retention left.
    */
    method Append(rec: Rec, now: int, steady: bool) returns (r: Report, ghost first: seq<Entry>, ghost second: seq<Entry>)
      requires Valid() && rec.len + 1 <= limits.file
      modifies this`dir, this`open, this`current, this`maintained, this`openedAt, this`bytes, this`part
      ensures Closed() && Spares(old(dir), dir)
      ensures Retained(old(dir), first, second, dir, rec.len + 1, limits, old(current), current, now)
      ensures now - old(maintained) <= SETTLED_SECONDS ==> first == old(dir)
      ensures r.Ok? && part == old(part) ==> second == first
      // A new part is begun exactly when none is open, the line does not fit, the day is over, or the pass closed it.
      ensures r.Ok? ==> (part == old(part) <==>
                           && old(open) && old(bytes) + rec.len + 1 <= limits.file && now - old(openedAt) < DAY_SECONDS
                           && !(now - old(maintained) > SETTLED_SECONDS && Stale(old(dir), old(current), now)))
      ensures current == old(current) || current == "" || Absent(second, current)
      ensures Usage(dir) <= Usage(old(dir)) + rec.len + 1
      ensures r.Ok? ==> Valid() && open && Usage(dir) <= limits.total
      ensures r.Ok? && part == old(part) ==>
                && old(open) && current == old(current) && bytes == old(bytes) + rec.len + 1 && now - old(openedAt) < DAY_SECONDS
      ensures r.Ok? && part != old(part) ==> part == old(part) + 1 && bytes == rec.len + 1 && openedAt == now
      ensures r.Ok? && now - old(maintained) > SETTLED_SECONDS ==> maintained == now
      ensures old(Usage(dir)) <= limits.total ==> Usage(dir) <= limits.total
      ensures r.Fault? ==> !steady
      ensures r.NoDirectory? ==> !rooted
      ensures steady && rooted && old(Startable(dir)) && old(part) < MAX_PART ==> r.Ok?
    {
      hide Usage, OwnerOf, Fits, Swept, Listed, Evictable, Expired, Stale, PartName, Six, Grown;
      first, second := dir, dir;
      NothingSwept(dir, rec.len + 1, limits, current, now);
      NothingSwept(dir, limits.file, limits, "", now);
      if !rooted {
        return NoDirectory, first, second;
      }
      if now - maintained > SETTLED_SECONDS {
        r := Maintain(rec.len + 1, now, steady);
        first, second := dir, dir;
        NothingSwept(dir, limits.file, limits, "", now);
        SweptSpares(old(dir), dir, rec.len + 1, limits, current, now);
        SweptWithin(old(dir), dir, rec.len + 1, limits, current, now);
        if !r.Ok? {
          return;
        }
      }
      if !open || bytes + rec.len + 1 > limits.file || now - openedAt >= DAY_SECONDS {
        r, second := Rotate(now, steady);
        SweptWithin(first, second, limits.file, limits, "", now);
        if !r.Ok? {
          return;
        }
      }
      r := PutLine(rec.len + 1, now, steady);
    }

    /** The memory ring: push one record, drop the oldest beyond 256. */
    method Remember(rec: Rec)
      requires |memory| <= MEMORY_RECORDS
      modifies this`memory
      ensures memory == Ring(old(memory) + [rec])
    {
      ghost var all := memory + [rec];
      memory := memory + [rec];
      while |memory| > MEMORY_RECORDS
        invariant |memory| <= |all| && memory == all[|all| - |memory|..]
        invariant |all| > MEMORY_RECORDS ==> |memory| >= MEMORY_RECORDS
        invariant |all| <= MEMORY_RECORDS ==> memory == all
      {
        memory := memory[1..];
      }
    }

    /** `write`: the memory ring always, the file unless a failure is less than five seconds old. */
    method Write(rec: Rec, now: int, steady: bool) returns (ghost first: seq<Entry>, ghost second: seq<Entry>)
      requires Valid() && rec.len + 1 <= limits.file
      modifies this
      ensures Valid()
      ensures memory == Ring(old(memory) + [rec])
      ensures old(Usage(dir)) <= limits.total ==> Usage(dir) <= limits.total
      ensures SparesOthers(old(dir), dir)
      ensures Retained(old(dir), first, second, dir, rec.len + 1, limits, old(current), current, now)
      ensures current == old(current) || current == "" || Absent(second, current)
      ensures Usage(dir) <= Usage(old(dir)) + rec.len + 1
      ensures now < old(retryAt) ==> dir == old(dir) && degraded == old(degraded)
      ensures now >= old(retryAt) && !degraded ==> open && Usage(dir) <= limits.total
      ensures now >= old(retryAt) && degraded ==> !open && retryAt == now + 5
      ensures now >= old(retryAt) && steady && old(rooted) && old(Startable(dir)) && old(part) < MAX_PART ==> !degraded
      ensures !degraded && rec.stopped && now >= old(retryAt) ==> Absent(dir, ".session-active")
    {
      hide Usage, OwnerOf, Fits, Pass, Swept;
      first, second := dir, dir;
      AsBefore(dir, rec.len + 1, limits, current, now);
      Remember(rec);
      if now < retryAt {
        return;
      }
      if !rooted {
        rooted := *;
      }
      var r;
      r, first, second := Append(rec, now, steady);
      degraded := !r.Ok?;
      SparesMore(old(dir), dir);
      if degraded {
        open := false;
        retryAt := now + 5;
      } else if rec.stopped {
        MarkerIsNoLog();
        RemovedFits(dir, ".session-active", current, bytes, limits);
        dir := Without(dir, ".session-active");
      }
    }

    /** The writer's minute without records: retention and the budget, with nothing incoming. */
    method Idle(now: int, steady: bool)
      requires Valid()
      modifies this`dir, this`open, this`current, this`maintained, this`degraded
      ensures Valid() && Usage(dir) <= Usage(old(dir)) && Spares(old(dir), dir)
      ensures Pass(old(dir), dir, 0, limits, old(current), now)
      ensures current == old(current) || current == ""
      ensures rooted && !degraded ==> !Pressed(dir, 0, limits)
    {
      hide Usage, OwnerOf, Fits, Swept;
      var r := Maintain(0, now, steady);
      SweptSpares(old(dir), dir, 0, limits, current, now);
      if !r.Ok? {
        degraded := true;
      }
    }

    /** The removal loop of `clear`, over a listing of the directory. */
    method RemoveLogs(files: seq<Entry>, steady: bool) returns (r: Report)
      requires Distinct(dir) && files == Listed(dir)
      modifies this`dir
      ensures Distinct(dir) && Usage(dir) <= Usage(old(dir)) && Spares(old(dir), dir)
      ensures forall e :: e in dir ==> e in old(dir)
      ensures if r.Ok? then forall e :: e in dir && e.regular ==> !OwnerOf(e.name).Managed? else r.Fault? && !steady
    {
      hide Usage, OwnerOf, Listed, Without, Sorted;
      ghost var before := dir;
      ListedIs(dir);
      assert forall a, b :: 0 <= a < b < |files| ==> files[a] != files[b];
      var k := 0;
      while k < |files|
        invariant 0 <= k <= |files|
        invariant Distinct(dir) && Usage(dir) <= Usage(before) && Spares(before, dir)
        invariant forall e :: e in dir ==> e in before
        invariant forall j :: k <= j < |files| ==> files[j] in dir
        invariant forall j :: 0 <= j < k && OwnerOf(files[j].name).Managed? ==> files[j] !in dir
      {
        if OwnerOf(files[k].name).Managed? {
          var fault: bool := *;
          if fault && !steady {
            return Report.Fault;
          }
          RemoveOne(dir, files[k]);
          RemovalSpares(before, dir, files[k]);
          dir := Without(dir, files[k].name);
        }
        k := k + 1;
      }
      forall e | e in dir && e.regular
        ensures !OwnerOf(e.name).Managed?
      {
        assert e in files;
      }
      return Ok;
    }

    /** `clear`: every log of this application, and nobody else's file. */
    method Clear(steady: bool) returns (r: Report)
      requires Valid()
      modifies this`dir, this`open, this`current, this`memory
      ensures Valid() && !open && Usage(dir) <= Usage(old(dir)) && Spares(old(dir), dir)
      ensures forall e :: e in dir ==> e in old(dir)
      ensures r.Ok? ==> memory == [] && (rooted ==> forall e :: e in dir && e.regular ==> !OwnerOf(e.name).Managed?)
      ensures !r.Ok? ==> memory == old(memory)
      ensures r.Ok? || (r.TooMany? && |Listed(old(dir))| > MAX_FILES) || (r.Fault? && !steady)
    {
      hide Usage, OwnerOf, Fits;
      open := false;
      current := "";
      var files;
      r, files := Files(steady);
      if r.Ok? && rooted {
        r := RemoveLogs(files, steady);
      }
      if r.Ok? {
        memory := [];
      }
    }

    /**
     The writer's loop, with the settings page clearing logs in between. Once the directory is within
     its budget, which the first stored record makes it, it stays there whatever fails. With room for all
     that is written, nothing but age and a clear takes a log away.
    */
    method Serve(calls: seq<Call>, steady: bool)
      requires Valid() && Usage(dir) <= limits.total
      requires forall c :: c in calls && c.Store? ==> c.rec.len + 1 <= limits.file
      modifies this
      ensures Valid() && Usage(dir) <= limits.total
      ensures forall e :: e in old(dir) && OwnerOf(e.name).Foreign? ==> e in dir
      ensures Usage(old(dir)) + Lines(calls) + limits.file <= limits.total && Wipe !in calls ==>
                forall e :: e in old(dir) && Lasts(e, calls, old(current)) ==> e in dir
    {
      hide Usage, OwnerOf, Fits, Retained, Pass, Expired, Lines;
      MarkerIsNoLog();
      var i := 0;
      assert calls[..0] == [] && Lines([]) == 0 by {
        NoLines();
      }
      while i < |calls|
        invariant 0 <= i <= |calls| && Valid() && Usage(dir) <= limits.total
        invariant forall e :: e in old(dir) && OwnerOf(e.name).Foreign? ==> e in dir
        invariant Wipe !in calls ==> Usage(dir) <= Usage(old(dir)) + Lines(calls[..i])
        invariant Usage(old(dir)) + Lines(calls) + limits.file <= limits.total && Wipe !in calls ==>
                    forall e :: e in old(dir) && Lasts(e, calls, old(current)) ==> e in dir && e.name != current
      {
        assert calls[i] in calls;
        LinesNext(calls, i);
        ghost var before, was := dir, current;
        match calls[i] {
          case Store(rec, now) =>
            ghost var first, second := Write(rec, now, steady);
            if Usage(old(dir)) + Lines(calls) + limits.file <= limits.total && Wipe !in calls {
              LastingWrite(before, first, second, dir, rec.len + 1, limits, was, current, now, calls, old(current));
            }
          case Wait(now) =>
            Idle(now, steady);
            if Usage(old(dir)) + Lines(calls) + limits.file <= limits.total && Wipe !in calls {
              LastingPass(before, dir, 0, limits, was, now, calls, old(current));
            }
          case Wipe => var _ := Clear(steady);
        }
        i := i + 1;
      }
    }
  }
}
