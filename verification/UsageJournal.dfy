/**
 The redo journal of the usage ledgers (storage_pg.py). recover_usage is run inside one transaction;
 here every write is its own crash point, which is what the same journal has to survive elsewhere.
 */
module UsageJournal {
  import opened Basics

  /** A ledger as its canonical text. Hashes of it are taken to be injective, so a text is its own identity. */
  type Ledger = string

  /** validate_usage: the upgraded ledger, or None when it raises. */
  type Validator = Ledger -> Option<Ledger>

  datatype Entry = Entry(path: string, before: Option<Ledger>, value: Ledger)

  /** `entries` is None when the stored value is not a list. */
  datatype Journal = Journal(version: int, entries: Option<seq<Entry>>)

  /** The usage column of the project row, the other artifacts, and the pending journal. */
  datatype Store = Store(usage: Option<Ledger>, artifacts: map<string, Ledger>, pending: Option<Journal>)

  const BOOK := "usage.json"
  const REVIEW_PREFIX := "reviews/review-"
  const REVIEW_SUFFIX := "/usage.json"
  const PENDING := "usage-pending.json"

  /** The two kinds of destination a journal may name. */
  predicate UsageKey(key: string) {
    || key == BOOK
    || (&& |key| > |REVIEW_PREFIX| + |REVIEW_SUFFIX|
        && key[..|REVIEW_PREFIX|] == REVIEW_PREFIX
        && key[|key| - |REVIEW_SUFFIX|..] == REVIEW_SUFFIX
        && '/' !in key[|REVIEW_PREFIX|..|key| - |REVIEW_SUFFIX|])
  }

  /** What _artifact_key still refuses of such a name. */
  predicate Storable(key: string) {
    '\\' !in key && '\0' !in key
  }

  /** The names a journal may use: the book's ledger, and one for each review named without a separator. */
  lemma UsageKeyIff(key: string)
    ensures UsageKey(key) <==>
              key == "usage.json"
              || exists name :: name != "" && '/' !in name && key == "reviews/review-" + name + "/usage.json"
  {
    if UsageKey(key) && key != BOOK {
      var name := key[|REVIEW_PREFIX|..|key| - |REVIEW_SUFFIX|];
      assert key == REVIEW_PREFIX + name + REVIEW_SUFFIX;
    }
    if name :| name != "" && '/' !in name && key == "reviews/review-" + name + "/usage.json" {
      assert key[..|REVIEW_PREFIX|] == REVIEW_PREFIX && key[|key| - |REVIEW_SUFFIX|..] == REVIEW_SUFFIX;
      assert key[|REVIEW_PREFIX|..|key| - |REVIEW_SUFFIX|] == name;
    }
  }

  /** Every review with a plain name has a ledger that can be recorded and replayed. */
  lemma ReviewLedgerIsStorable(name: string)
    requires name != "" && '/' !in name && '\\' !in name && '\0' !in name
    ensures UsageKey("reviews/review-" + name + "/usage.json") && Storable("reviews/review-" + name + "/usage.json")
    ensures UsageKey("usage.json") && Storable("usage.json")
  {
    UsageKeyIff("reviews/review-" + name + "/usage.json");
  }

  /** So the journal can be a field of its own: no write of a ledger reaches it. */
  lemma JournalIsNoLedger()
    ensures !UsageKey(PENDING)
  {
    assert PENDING[0] == 'u' && REVIEW_PREFIX[0] == 'r';
    assert |PENDING| > |REVIEW_PREFIX| ==> PENDING[..|REVIEW_PREFIX|][0] == PENDING[0];
  }

  function Read(db: Store, key: string): Option<Ledger> {
    if key == BOOK then db.usage else if key in db.artifacts then Some(db.artifacts[key]) else None
  }

  function Write(db: Store, key: string, value: Ledger): Store {
    if key == BOOK then db.(usage := Some(value)) else db.(artifacts := db.artifacts[key := value])
  }

  /** The entry can be replayed here: its ledger holds what the journal saw, or what it writes. */
  predicate Replayable(db: Store, e: Entry, validate: Validator) {
    && UsageKey(e.path) && Storable(e.path)
    && validate(e.value).Some?
    && (Read(db, e.path) == e.before || Read(db, e.path) == validate(e.value))
  }

  predicate AllReplayable(db: Store, entries: seq<Entry>, validate: Validator) {
    forall e | e in entries :: Replayable(db, e, validate)
  }

  predicate DistinctPaths(entries: seq<Entry>) {
    forall i, j :: 0 <= i < j < |entries| ==> entries[i].path != entries[j].path
  }

  predicate AllValid(entries: seq<Entry>, validate: Validator) {
    forall e | e in entries :: validate(e.value).Some?
  }

  /** The ledgers after these entries have been written, in order. */
  function Applied(db: Store, entries: seq<Entry>, validate: Validator): Store {
    if entries == [] then db
    else
      var e := entries[|entries| - 1];
      var before := Applied(db, entries[..|entries| - 1], validate);
      match validate(e.value)
      case Some(value) => Write(before, e.path, value)
      case None => before
  }

  datatype Result = Recovered | Raised | Crashed

  class Storage {
    var db: Store

    constructor (first: Store)
      ensures db == first
    {
      db := first;
    }

    /** recover_usage, allowed `budget` durable writes before the process dies; `n` of them were ledgers. */
    method Recover(budget: nat, validate: Validator) returns (r: Result, ghost n: nat)
      requires WellFormed(db)
      modifies this
      ensures r.Recovered? ==> db == Finished(old(db), validate) && !Unrecoverable(old(db), validate)
      ensures r.Raised? ==> Unrecoverable(old(db), validate)
      ensures !r.Recovered? ==> Partly(old(db), n, validate) && db == Halfway(old(db), n, validate)
      ensures r.Crashed? ==> n == budget
      ensures r.Raised? && Readable(old(db)) ==> n < Length(old(db)) && !Replayable(old(db), Entries(old(db))[n], validate)
      ensures budget > Length(old(db)) ==> !r.Crashed?
    {
      n := 0;
      if db.pending.None? {
        return Recovered, 0;
      }
      var journal := db.pending.value;
      if journal.version != 1 || journal.entries.None? {
        return Raised, 0;
      }
      var entries := journal.entries.value;
      ghost var first := db;
      var i := 0;
      while i < |entries|
        invariant 0 <= i <= |entries| && i <= budget
        invariant db == Applied(first, entries[..i], validate)
        invariant AllReplayable(first, entries[..i], validate)
      {
        AppliedElsewhere(first, entries, i, validate);
        var written := ReplayOne(entries[i], i < budget, validate);
        if written != Recovered {
          assert entries[i] in entries;
          return written, i;
        }
        assert entries[..i + 1][..i] == entries[..i];
        i := i + 1;
      }
      assert entries[..|entries|] == entries;
      if i == budget {
        return Crashed, i;
      }
      db := db.(pending := None);
      return Recovered, i;
    }

    /** One entry: the checks, then the write unless the process dies first. */
    method ReplayOne(e: Entry, alive: bool, validate: Validator) returns (r: Result)
      modifies this
      ensures r.Raised? <==> !old(Replayable(db, e, validate))
      ensures r.Recovered? <==> old(Replayable(db, e, validate)) && alive
      ensures db == if r.Recovered? then Write(old(db), e.path, validate(e.value).value) else old(db)
    {
      if !UsageKey(e.path) || !Storable(e.path) {
        return Raised;
      }
      var value := validate(e.value);
      if value.None? {
        return Raised;
      }
      var stored := Read(db, e.path);
      if stored != e.before && stored != value {
        return Raised;
      }
      if !alive {
        return Crashed;
      }
      db := Write(db, e.path, value.value);
      return Recovered;
    }
  }

  // ---- Starting again from any point ----

  /** A journal that prepare_usage_commit wrote names each ledger once: it came from a dictionary. */
  predicate WellFormed(db: Store) {
    db.pending.Some? && db.pending.value.entries.Some? ==> DistinctPaths(db.pending.value.entries.value)
  }

  predicate Readable(db: Store) {
    db.pending.Some? && db.pending.value.version == 1 && db.pending.value.entries.Some?
  }

  function Entries(db: Store): seq<Entry> {
    if db.pending.Some? && db.pending.value.entries.Some? then db.pending.value.entries.value else []
  }

  function Length(db: Store): nat {
    |Entries(db)|
  }

  /** An invalid journal, or a ledger that holds neither its recorded nor its new value. */
  predicate Unrecoverable(db: Store, validate: Validator) {
    db.pending.Some? && (!Readable(db) || !AllReplayable(db, Entries(db), validate))
  }

  predicate Partly(db: Store, n: int, validate: Validator) {
    0 <= n <= Length(db) && AllReplayable(db, Entries(db)[..n], validate)
  }

  function Halfway(db: Store, n: int, validate: Validator): Store
    requires 0 <= n <= Length(db)
  {
    Applied(db, Entries(db)[..n], validate)
  }

  function Finished(db: Store, validate: Validator): Store {
    if db.pending.None? then db else Applied(db, Entries(db), validate).(pending := None)
  }

  lemma {:induction false} AppliedKeepsJournal(db: Store, entries: seq<Entry>, validate: Validator)
    ensures Applied(db, entries, validate).pending == db.pending
  {
    if entries != [] {
      AppliedKeepsJournal(db, entries[..|entries| - 1], validate);
    }
  }

  lemma {:induction false} AppliedReads(db: Store, entries: seq<Entry>, validate: Validator, key: string)
    requires forall e | e in entries :: e.path != key
    ensures Read(Applied(db, entries, validate), key) == Read(db, key)
  {
    if entries != [] {
      AppliedReads(db, entries[..|entries| - 1], validate, key);
      assert entries[|entries| - 1] in entries;
    }
  }

  /** Earlier entries leave a later ledger alone. */
  lemma AppliedElsewhere(db: Store, entries: seq<Entry>, i: nat, validate: Validator)
    requires DistinctPaths(entries) && i < |entries|
    ensures Read(Applied(db, entries[..i], validate), entries[i].path) == Read(db, entries[i].path)
  {
    AppliedReads(db, entries[..i], validate, entries[i].path);
  }

  lemma {:induction false} AppliedWrites(db: Store, entries: seq<Entry>, i: nat, validate: Validator)
    requires DistinctPaths(entries) && i < |entries| && validate(entries[i].value).Some?
    ensures Read(Applied(db, entries, validate), entries[i].path) == validate(entries[i].value)
  {
    if i < |entries| - 1 {
      AppliedWrites(db, entries[..|entries| - 1], i, validate);
    }
  }

  /**
   Nothing else is written: no artifact but those the entries name, and not even the artifact stored under
   the name of the usage column, whose ledger is that column.
  */
  lemma {:induction false} AppliedSpares(db: Store, entries: seq<Entry>, validate: Validator, name: string)
    requires name == BOOK || forall e | e in entries :: e.path != name
    ensures var t := Applied(db, entries, validate);
            && (name in t.artifacts <==> name in db.artifacts)
            && (name in t.artifacts ==> t.artifacts[name] == db.artifacts[name])
  {
    if entries != [] {
      assert entries == entries[..|entries| - 1] + [entries[|entries| - 1]];
      AppliedSpares(db, entries[..|entries| - 1], validate, name);
    }
  }

  /** The final ledgers depend only on what is read outside the journal. */
  lemma AppliedIsFinal(a: Store, b: Store, entries: seq<Entry>, validate: Validator)
    requires DistinctPaths(entries) && AllValid(entries, validate)
    requires forall key :: (forall e | e in entries :: e.path != key) ==> Read(a, key) == Read(b, key)
    requires a.pending == b.pending
    requires BOOK in a.artifacts <==> BOOK in b.artifacts
    requires BOOK in a.artifacts ==> a.artifacts[BOOK] == b.artifacts[BOOK]
    ensures Applied(a, entries, validate) == Applied(b, entries, validate)
  {
    var s, t := Applied(a, entries, validate), Applied(b, entries, validate);
    AppliedKeepsJournal(a, entries, validate);
    AppliedKeepsJournal(b, entries, validate);
    AppliedSpares(a, entries, validate, BOOK);
    AppliedSpares(b, entries, validate, BOOK);
    forall key
      ensures Read(s, key) == Read(t, key)
    {
      if i :| 0 <= i < |entries| && entries[i].path == key {
        AppliedWrites(a, entries, i, validate);
        AppliedWrites(b, entries, i, validate);
      } else {
        AppliedReads(a, entries, validate, key);
        AppliedReads(b, entries, validate, key);
      }
    }
    assert s.usage == t.usage by {
      assert Read(s, BOOK) == Read(t, BOOK);
    }
    forall key
      ensures key in s.artifacts <==> key in t.artifacts
      ensures key in s.artifacts && key in t.artifacts ==> s.artifacts[key] == t.artifacts[key]
    {
      assert Read(s, key) == Read(t, key);
    }
  }

  /** After `n` ledgers were written, each entry is as replayable as it was at the start. */
  lemma HalfwayReplayable(db: Store, n: nat, validate: Validator, e: Entry)
    requires WellFormed(db) && Partly(db, n, validate) && e in Entries(db)
    ensures Replayable(Halfway(db, n, validate), e, validate) <==> Replayable(db, e, validate)
  {
    var entries := Entries(db);
    var done := entries[..n];
    var i :| 0 <= i < |entries| && entries[i] == e;
    if i < n {
      assert done[i] == e && e in done;
      AppliedWrites(db, done, i, validate);
    } else {
      AppliedReads(db, done, validate, e.path);
    }
  }

  /** A restart sees the same journal, raises exactly if the first run would have, and ends in the same place. */
  lemma HalfwayRecovers(db: Store, n: nat, validate: Validator)
    requires WellFormed(db) && Partly(db, n, validate)
    ensures var half := Halfway(db, n, validate);
            && half.pending == db.pending
            && (Unrecoverable(half, validate) <==> Unrecoverable(db, validate))
            && (!Unrecoverable(db, validate) ==> Finished(half, validate) == Finished(db, validate))
  {
    var entries := Entries(db);
    var half := Halfway(db, n, validate);
    AppliedKeepsJournal(db, entries[..n], validate);
    forall e | e in entries
      ensures Replayable(half, e, validate) <==> Replayable(db, e, validate)
    {
      HalfwayReplayable(db, n, validate, e);
    }
    if !Unrecoverable(db, validate) && db.pending.Some? {
      forall key | forall e | e in entries :: e.path != key
        ensures Read(half, key) == Read(db, key)
      {
        AppliedReads(db, entries[..n], validate, key);
      }
      AppliedSpares(db, entries[..n], validate, BOOK);
      AppliedIsFinal(half, db, entries, validate);
    }
  }

  /** Two interrupted runs leave what the longer of them would have left. */
  lemma HalfwayAgain(db: Store, n: nat, m: nat, validate: Validator)
    requires WellFormed(db) && Partly(db, n, validate) && m <= Length(db)
    requires Partly(Halfway(db, n, validate), m, validate)
    ensures Length(Halfway(db, n, validate)) == Length(db)
    ensures var k := if n < m then m else n;
            Partly(db, k, validate) && Halfway(Halfway(db, n, validate), m, validate) == Halfway(db, k, validate)
  {
    var entries, half := Entries(db), Halfway(db, n, validate);
    AppliedKeepsJournal(db, entries[..n], validate);
    forall e | e in entries[..m]
      ensures Replayable(db, e, validate)
    {
      HalfwayReplayable(db, n, validate, e);
    }
    var k := if n < m then m else n;
    var long := entries[..k];
    forall e | e in long
      ensures Replayable(db, e, validate)
    {
      assert e in entries[..n] || e in entries[..m];
    }
    HalfwayMeets(db, n, m, validate);
  }

  lemma HalfwayMeets(db: Store, n: nat, m: nat, validate: Validator)
    requires WellFormed(db) && n <= Length(db) && m <= Length(db)
    requires AllValid(Entries(db)[..n], validate) && AllValid(Entries(db)[..m], validate)
    ensures Applied(Applied(db, Entries(db)[..n], validate), Entries(db)[..m], validate)
         == Applied(db, Entries(db)[..if n < m then m else n], validate)
  {
    var entries := Entries(db);
    var half := Applied(db, entries[..n], validate);
    if n < m {
      forall key | forall e | e in entries[..m] :: e.path != key
        ensures Read(half, key) == Read(db, key)
      {
        assert forall e | e in entries[..n] :: e in entries[..m];
        AppliedReads(db, entries[..n], validate, key);
      }
      AppliedSpares(db, entries[..n], validate, BOOK);
      AppliedKeepsJournal(db, entries[..n], validate);
      AppliedIsFinal(half, db, entries[..m], validate);
    } else {
      HalfwayRewrites(db, n, m, validate);
    }
  }

  /** Writing what is already there changes nothing. */
  lemma {:induction false} HalfwayRewrites(db: Store, n: nat, m: nat, validate: Validator)
    requires WellFormed(db) && m <= n <= Length(db)
    requires AllValid(Entries(db)[..n], validate)
    ensures Applied(Applied(db, Entries(db)[..n], validate), Entries(db)[..m], validate) == Applied(db, Entries(db)[..n], validate)
    decreases m
  {
    if m > 0 {
      var done := Entries(db)[..n];
      var part := Entries(db)[..m];
      assert part[..|part| - 1] == Entries(db)[..m - 1];
      HalfwayRewrites(db, n, m - 1, validate);
      assert done[m - 1] in done;
      AppliedWrites(db, done, m - 1, validate);
    }
  }

  /**
   However often the process dies, and wherever, running recovery again reaches the one final state, or
   the one refusal with only journal values written and the journal still there.
  */
  method RecoverAfterCrashes(storage: Storage, crashes: seq<nat>, validate: Validator) returns (ok: bool)
    requires WellFormed(storage.db)
    modifies storage
    ensures ok <==> !old(Unrecoverable(storage.db, validate))
    ensures ok ==> storage.db == Finished(old(storage.db), validate)
    ensures !ok ==> exists n :: Partly(old(storage.db), n, validate) && storage.db == Halfway(old(storage.db), n, validate)
    ensures storage.db.pending == if ok then None else old(storage.db.pending)
  {
    ghost var first := storage.db;
    ghost var n: nat := 0;
    var i := 0;
    while i < |crashes|
      invariant Partly(first, n, validate) && storage.db == Halfway(first, n, validate)
    {
      HalfwayRecovers(first, n, validate);
      var r, m := storage.Recover(crashes[i], validate);
      if r.Recovered? {
        AppliedKeepsJournal(first, Entries(first), validate);
        return true;
      }
      HalfwayAgain(first, n, m, validate);
      n := if n < m then m else n;
      AppliedKeepsJournal(first, Entries(first)[..n], validate);
      if r.Raised? {
        return false;
      }
      i := i + 1;
    }
    HalfwayRecovers(first, n, validate);
    var budget := (if storage.db.pending.Some? && storage.db.pending.value.entries.Some? then |storage.db.pending.value.entries.value| else 0) + 1;
    var r, m := storage.Recover(budget, validate);
    ok := r.Recovered?;
    if ok {
      AppliedKeepsJournal(first, Entries(first), validate);
    } else {
      HalfwayAgain(first, n, m, validate);
      n := if n < m then m else n;
      AppliedKeepsJournal(first, Entries(first)[..n], validate);
    }
  }

  // ---- Writing the journal ----

  datatype Ledgers = Ledgers(items: seq<(string, Ledger)>)

  predicate Keyed(ledgers: Ledgers) {
    forall i, j :: 0 <= i < j < |ledgers.items| ==> ledgers.items[i].0 != ledgers.items[j].0
  }

  predicate Nameable(ledgers: Ledgers) {
    forall i :: 0 <= i < |ledgers.items| ==> UsageKey(ledgers.items[i].0) && Storable(ledgers.items[i].0)
  }

  function Recorded(db: Store, ledgers: Ledgers): seq<Entry> {
    seq(|ledgers.items|, i requires 0 <= i < |ledgers.items| =>
      Entry(ledgers.items[i].0, Read(db, ledgers.items[i].0), ledgers.items[i].1))
  }

  method PrepareCommit(storage: Storage, ledgers: Ledgers) returns (ok: bool)
    modifies storage
    ensures ok <==> Nameable(ledgers)
    ensures storage.db == if ok then old(storage.db).(pending := Some(Journal(1, Some(Recorded(old(storage.db), ledgers)))))
                          else old(storage.db)
  {
    var entries: seq<Entry> := [];
    var i := 0;
    while i < |ledgers.items|
      invariant 0 <= i <= |ledgers.items|
      invariant forall j :: 0 <= j < i ==> UsageKey(ledgers.items[j].0) && Storable(ledgers.items[j].0)
      invariant entries == Recorded(storage.db, ledgers)[..i]
    {
      var (key, value) := ledgers.items[i];
      if !UsageKey(key) || !Storable(key) {
        return false;
      }
      entries := entries + [Entry(key, Read(storage.db, key), value)];
      i := i + 1;
    }
    assert entries == Recorded(storage.db, ledgers);
    storage.db := storage.db.(pending := Some(Journal(1, Some(entries))));
    return true;
  }

  /** A freshly written journal is recoverable exactly if every new ledger is valid, and then commits all of them. */
  lemma PreparedCommits(db: Store, ledgers: Ledgers, validate: Validator)
    requires Keyed(ledgers) && Nameable(ledgers)
    ensures var ready := db.(pending := Some(Journal(1, Some(Recorded(db, ledgers)))));
            && WellFormed(ready)
            && (Unrecoverable(ready, validate) <==> !AllValid(Recorded(db, ledgers), validate))
            && (!Unrecoverable(ready, validate) ==>
                  && (forall i :: 0 <= i < |ledgers.items| ==>
                        Read(Finished(ready, validate), ledgers.items[i].0) == validate(ledgers.items[i].1))
                  && (forall key :: (forall i :: 0 <= i < |ledgers.items| ==> ledgers.items[i].0 != key) ==>
                        Read(Finished(ready, validate), key) == Read(db, key)))
  {
    var entries := Recorded(db, ledgers);
    var ready := db.(pending := Some(Journal(1, Some(entries))));
    assert forall e | e in entries :: Read(ready, e.path) == e.before;
    if !Unrecoverable(ready, validate) {
      forall i | 0 <= i < |ledgers.items|
        ensures Read(Finished(ready, validate), ledgers.items[i].0) == validate(ledgers.items[i].1)
      {
        assert entries[i] in entries;
        AppliedWrites(ready, entries, i, validate);
      }
      forall key | forall i :: 0 <= i < |ledgers.items| ==> ledgers.items[i].0 != key
        ensures Read(Finished(ready, validate), key) == Read(db, key)
      {
        AppliedReads(ready, entries, validate, key);
      }
    }
  }
}
