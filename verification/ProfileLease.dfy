/**
 The shared profile directory of every Wenyi process, as the locks the operating system keeps and the
 place each process has reached in its own code.

 One admission file (the gate) is locked exclusively and never waited for. One profile file is locked
 shared by every running engine and exclusively by an upgrade. A registry directory holds one lock
 file per engine that a native parent started. A process may stop between any two system calls, and
 it may die anywhere; the system then drops its locks and leaves its registry file behind, unlocked.
 */
module ProfileLease {
  import opened Basics

  type Pid = nat
  type Name = nat

  /** A registry entry: a lease file and its live owner if any, or something the scan must not touch. */
  datatype Entry = Lock(owner: Option<Pid>) | Foreign

  datatype Pc =
    | Outside                                           // no lease
    | EnterGate                                         // gate taken on the way in
    | EnterScan(todo: set<Name>)                        // shared lease taken, registry being read
    | Admitted                                          // shared lease held, gate about to be released
    | Inside                                            // Profile: the ordinary shared lease
    | ExclGate                                          // exclusive(): gate taken, still shared
    | ExclUnlocked                                      // exclusive(): shared lease released
    | ExclScan(owned: Option<Name>, todo: set<Name>)    // exclusive(): exclusive lease, registry being read
    | Upgrade                                           // the guard returned to the caller
    | QuietScan(todo: set<Name>)                        // quiescent() in progress
    | Relock                                            // blocked in lock_shared, gate still held
    | Registered(name: Name)                            // engine of a native parent, gate held, writer locked
    | Writing(name: Name)                               // the same engine after releasing the gate

  datatype Lease = Lease(
    gate: Option<Pid>,
    shared: set<Pid>,
    exclusive: Option<Pid>,
    writers: map<Name, Entry>,
    pcs: map<Pid, Pc>)

  datatype Event =
    | AcquireGate
    | TryShared(scan: bool)
    | ScanOne(name: Name)
    | ScanDone
    | Abandon
    | ReleaseGate
    | Unlock
    | TryExclusive(owned: Option<Name>)
    | LockShared
    | BeginQuiescent
    | DropUpgrade
    | Leave
    | Register(name: Name)
    | Unregister
    | Crash
    | Litter(name: Name)

  datatype Move = Move(pid: Pid, event: Event)

  function At(s: Lease, p: Pid): Pc {
    if p in s.pcs then s.pcs[p] else Outside
  }

  function Goto(s: Lease, p: Pid, pc: Pc): Lease {
    s.(pcs := s.pcs[p := pc])
  }

  predicate HoldsGate(pc: Pc) {
    match pc
    case Outside | Inside | Writing(_) => false
    case _ => true
  }

  predicate HoldsShared(pc: Pc) {
    pc.EnterScan? || pc.Admitted? || pc.Inside? || pc.ExclGate?
  }

  predicate HoldsExclusive(pc: Pc) {
    pc.ExclScan? || pc.Upgrade? || pc.QuietScan?
  }

  predicate HoldsWriter(pc: Pc, n: Name) {
    pc == Registered(n) || pc == Writing(n)
  }

  predicate Owns(s: Lease, p: Pid, n: Name) {
    n in s.writers && s.writers[n] == Lock(Some(p))
  }

  predicate Live(s: Lease, n: Name) {
    n in s.writers && s.writers[n].Lock? && s.writers[n].owner.Some?
  }

  /** Every registry file whose lock is held by a running engine. */
  function LiveWriters(s: Lease): set<Name> {
    set n | n in s.writers && Live(s, n)
  }

  /** A scan can go past `n`: a lease file, and unless live writers are tolerated, stale or the caller's own. */
  predicate Passable(s: Lease, pc: Pc, n: Name) {
    && n in s.writers && s.writers[n].Lock?
    && (Live(s, n) ==> pc.EnterScan? || (pc.ExclScan? && pc.owned == Some(n)))
  }

  /** Every lease file of the registry is stale or belongs to the named writer. */
  predicate Clear(s: Lease, owned: Option<Name>) {
    forall n :: n in s.writers ==> s.writers[n].Lock? && (Live(s, n) ==> owned == Some(n))
  }

  const EMPTY := Lease(None, {}, None, map[], map[])

  /** How a scan treats the entry it has opened: None stands for the error return. */
  function Inspect(s: Lease, pc: Pc, n: Name): Option<map<Name, Entry>> {
    if n !in s.writers || s.writers[n].Foreign? then None
    else if pc.ExclScan? && pc.owned == Some(n) then Some(s.writers)
    else if s.writers[n].owner.None? then Some(s.writers - {n})
    else if pc.EnterScan? then Some(s.writers)
    else None
  }

  /** What the system does to the locks of a process that dies. */
  function Died(s: Lease, p: Pid): Lease {
    Lease(
      if s.gate == Some(p) then None else s.gate,
      s.shared - {p},
      if s.exclusive == Some(p) then None else s.exclusive,
      map n | n in s.writers :: if s.writers[n] == Lock(Some(p)) then Lock(None) else s.writers[n],
      s.pcs[p := Outside])
  }

  /** One system call of one process. None: the call is not next in its code, or it blocks. */
  function Next(s: Lease, p: Pid, e: Event): Option<Lease> {
    var pc := At(s, p);
    match e
    case AcquireGate =>
      if !pc.Outside? && !pc.Inside? then None
      else if s.gate.Some? then Some(s)
      else Some(Goto(s.(gate := Some(p)), p, if pc.Outside? then EnterGate else ExclGate))
    case TryShared(scan) =>
      if !pc.EnterGate? then None
      else if s.exclusive.Some? then Some(s)
      else Some(Goto(s.(shared := s.shared + {p}), p, if scan then EnterScan(s.writers.Keys) else Admitted))
    case ScanOne(n) =>
      if !(pc.EnterScan? || pc.ExclScan? || pc.QuietScan?) || n !in pc.todo then None
      else
        var seen := Inspect(s, pc, n);
        if seen.None? then None
        else Some(Goto(s.(writers := seen.value), p, pc.(todo := pc.todo - {n})))
    case ScanDone =>
      if !(pc.EnterScan? || pc.ExclScan? || pc.QuietScan?) || pc.todo != {} then None
      else Some(Goto(s, p, if pc.EnterScan? then Admitted else Upgrade))
    case Abandon =>
      if pc.EnterScan? then Some(Goto(s.(shared := s.shared - {p}), p, EnterGate))
      else if pc.ExclScan? then Some(Goto(s.(exclusive := None), p, Relock))
      else if pc.QuietScan? then Some(Goto(s, p, Upgrade))
      else None
    case ReleaseGate =>
      if pc.EnterGate? then Some(Goto(s.(gate := None), p, Outside))
      else if pc.Admitted? || pc.ExclGate? then Some(Goto(s.(gate := None), p, Inside))
      else if pc.Registered? then Some(Goto(s.(gate := None), p, Writing(pc.name)))
      else None
    case Unlock =>
      if !pc.ExclGate? then None else Some(Goto(s.(shared := s.shared - {p}), p, ExclUnlocked))
    case TryExclusive(owned) =>
      if !pc.ExclUnlocked? then None
      else if s.exclusive.Some? || s.shared != {} then Some(Goto(s, p, Relock))
      else Some(Goto(s.(exclusive := Some(p)), p, ExclScan(owned, s.writers.Keys)))
    case LockShared =>
      if !pc.Relock? || s.exclusive.Some? then None
      else Some(Goto(s.(shared := s.shared + {p}), p, Admitted))
    case BeginQuiescent =>
      if !pc.Upgrade? then None else Some(Goto(s, p, QuietScan(s.writers.Keys)))
    case DropUpgrade =>
      if !pc.Upgrade? then None else Some(Goto(s.(exclusive := None), p, Relock))
    case Leave =>
      if !pc.Inside? then None else Some(Goto(s.(shared := s.shared - {p}), p, Outside))
    case Register(n) =>
      if !pc.EnterGate? || Live(s, n) || (n in s.writers && s.writers[n].Foreign?) then None
      else Some(Goto(s.(writers := s.writers[n := Lock(Some(p))]), p, Registered(n)))
    case Unregister =>
      if !pc.Writing? then None
      else Some(Goto(s.(writers := s.writers[pc.name := Lock(None)]), p, Outside))
    case Crash => Some(Died(s, p))
    case Litter(n) =>
      if n in s.writers then None else Some(s.(writers := s.writers[n := Foreign]))
  }

  /** A scheduler may propose any call; one that is not possible changes nothing. */
  function Apply(s: Lease, m: Move): Lease {
    var t := Next(s, m.pid, m.event);
    if t.Some? then t.value else s
  }

  function Run(s: Lease, moves: seq<Move>): Lease
    decreases |moves|
  {
    if moves == [] then s else Run(Apply(s, moves[0]), moves[1..])
  }

  // ---- What every step keeps ----

  ghost predicate AgreeGate(s: Lease) {
    forall p: Pid :: s.gate == Some(p) <==> HoldsGate(At(s, p))
  }

  ghost predicate AgreeShared(s: Lease) {
    forall p: Pid :: p in s.shared <==> HoldsShared(At(s, p))
  }

  ghost predicate AgreeExclusive(s: Lease) {
    forall p: Pid :: s.exclusive == Some(p) <==> HoldsExclusive(At(s, p))
  }

  ghost predicate AgreeWriters(s: Lease) {
    forall p: Pid, n: Name :: Owns(s, p, n) <==> HoldsWriter(At(s, p), n)
  }

  /** The locks the system holds are those the code of each process believes it holds. */
  ghost predicate Agree(s: Lease) {
    AgreeGate(s) && AgreeShared(s) && AgreeExclusive(s) && AgreeWriters(s)
  }

  /** A scan that refuses live writers may still meet `n`: it is unread, or it is the caller's own. */
  predicate MayMeet(pc: Pc, n: Name) {
    && (pc.ExclScan? ==> n in pc.todo || pc.owned == Some(n))
    && (pc.QuietScan? ==> n in pc.todo)
  }

  ghost predicate Scanned(s: Lease) {
    forall p: Pid, n: Name :: Live(s, n) ==> MayMeet(At(s, p), n)
  }

  ghost predicate Inv(s: Lease) {
    && Agree(s)
    && Scanned(s)
    && (s.exclusive.Some? ==> s.shared == {})
  }

  lemma InitInv()
    ensures Inv(EMPTY)
  {
  }

  /** The only process whose program counter a step changes is the one that makes it. */
  lemma OthersStay(s: Lease, m: Move, q: Pid)
    requires q != m.pid
    ensures At(Apply(s, m), q) == At(s, q)
  {
  }

  lemma StepAgreesOnGate(s: Lease, m: Move)
    requires AgreeGate(s)
    ensures AgreeGate(Apply(s, m))
  {
    forall q: Pid
      ensures Apply(s, m).gate == Some(q) <==> HoldsGate(At(Apply(s, m), q))
    {
      assert s.gate == Some(q) <==> HoldsGate(At(s, q));
      assert s.gate == Some(m.pid) <==> HoldsGate(At(s, m.pid));
    }
  }

  lemma StepAgreesOnShared(s: Lease, m: Move)
    requires AgreeShared(s)
    ensures AgreeShared(Apply(s, m))
  {
    forall q: Pid
      ensures q in Apply(s, m).shared <==> HoldsShared(At(Apply(s, m), q))
    {
      assert q in s.shared <==> HoldsShared(At(s, q));
    }
  }

  lemma StepAgreesOnExclusive(s: Lease, m: Move)
    requires AgreeExclusive(s)
    ensures AgreeExclusive(Apply(s, m))
  {
    forall q: Pid
      ensures Apply(s, m).exclusive == Some(q) <==> HoldsExclusive(At(Apply(s, m), q))
    {
      assert s.exclusive == Some(q) <==> HoldsExclusive(At(s, q));
      assert s.exclusive == Some(m.pid) <==> HoldsExclusive(At(s, m.pid));
    }
  }

  lemma StepAgreesOnWriter(s: Lease, m: Move, q: Pid, n: Name)
    requires AgreeWriters(s)
    ensures Owns(Apply(s, m), q, n) <==> HoldsWriter(At(Apply(s, m), q), n)
  {
    assert Owns(s, q, n) <==> HoldsWriter(At(s, q), n);
    assert Owns(s, m.pid, n) <==> HoldsWriter(At(s, m.pid), n);
    if q != m.pid {
      OthersStay(s, m, q);
    }
    if m.event.Unregister? && At(s, m.pid).Writing? {
      assert Owns(s, m.pid, At(s, m.pid).name);
    }
  }

  lemma StepAgreesOnWriters(s: Lease, m: Move)
    requires AgreeWriters(s)
    ensures AgreeWriters(Apply(s, m))
  {
    forall q: Pid, n: Name
      ensures Owns(Apply(s, m), q, n) <==> HoldsWriter(At(Apply(s, m), q), n)
    {
      StepAgreesOnWriter(s, m, q, n);
    }
  }

  /** Leases are registered by the gate holder alone, so nothing goes live behind a scan. */
  lemma StepScanned(s: Lease, m: Move)
    requires Inv(s)
    ensures Scanned(Apply(s, m))
  {
    var t := Apply(s, m);
    forall q: Pid, n: Name | Live(t, n)
      ensures MayMeet(At(t, q), n)
    {
      assert s.gate == Some(q) <==> HoldsGate(At(s, q));
      assert s.gate == Some(m.pid) <==> HoldsGate(At(s, m.pid));
      assert Live(s, n) || m.event == Register(n);
    }
  }

  lemma StepInv(s: Lease, m: Move)
    requires Inv(s)
    ensures Inv(Apply(s, m))
  {
    hide AgreeGate, AgreeWriters, Scanned;
    StepAgreesOnGate(s, m);
    StepAgreesOnShared(s, m);
    StepAgreesOnExclusive(s, m);
    StepAgreesOnWriters(s, m);
    StepScanned(s, m);
  }

  lemma {:induction false} RunInv(s: Lease, moves: seq<Move>)
    requires Inv(s)
    ensures Inv(Run(s, moves))
    decreases |moves|
  {
    if moves != [] {
      StepInv(s, moves[0]);
      RunInv(Apply(s, moves[0]), moves[1..]);
    }
  }

  // ---- What an upgrade may rely on ----

  lemma ExclusiveOwnsTheGate(s: Lease)
    requires Inv(s)
    ensures forall p :: s.exclusive == Some(p) ==> s.gate == Some(p) && HoldsExclusive(At(s, p))
  {
    forall p | s.exclusive == Some(p)
      ensures s.gate == Some(p) && HoldsExclusive(At(s, p))
    {
      assert HoldsExclusive(At(s, p));
    }
  }

  /** At most one process is upgrading, and while it is, nobody else has any lease or the gate. */
  lemma OneUpgrade(moves: seq<Move>, p: Pid, q: Pid)
    requires p != q
    requires HoldsExclusive(At(Run(EMPTY, moves), p))
    ensures !HoldsExclusive(At(Run(EMPTY, moves), q))
    ensures !HoldsShared(At(Run(EMPTY, moves), q))
    ensures !HoldsGate(At(Run(EMPTY, moves), q))
  {
    var s := Run(EMPTY, moves);
    InitInv();
    RunInv(EMPTY, moves);
    assert s.exclusive == Some(p);
    assert s.gate == Some(p);
  }

  /** One step beside a held upgrade lease: no shared lease appears and no writer starts. */
  lemma HeldStep(s: Lease, m: Move, p: Pid)
    requires Inv(s)
    requires HoldsExclusive(At(s, p)) && HoldsExclusive(At(Apply(s, m), p))
    ensures Apply(s, m).shared == {}
    ensures LiveWriters(Apply(s, m)) <= LiveWriters(s)
  {
    var t := Apply(s, m);
    StepInv(s, m);
    assert s.exclusive == Some(p) && s.gate == Some(p) && t.exclusive == Some(p);
    assert s.gate == Some(m.pid) <==> HoldsGate(At(s, m.pid));
    forall n | n in LiveWriters(t)
      ensures n in LiveWriters(s)
    {
    }
  }

  /** `p` holds the upgrade lease before and after every one of the moves. */
  ghost predicate Keeps(s: Lease, p: Pid, moves: seq<Move>)
    decreases |moves|
  {
    HoldsExclusive(At(s, p)) && (moves != [] ==> Keeps(Apply(s, moves[0]), p, moves[1..]))
  }

  lemma {:induction false} WritersOnlyStop(s: Lease, p: Pid, moves: seq<Move>)
    requires Inv(s)
    requires Keeps(s, p, moves)
    ensures LiveWriters(Run(s, moves)) <= LiveWriters(s)
    ensures Run(s, moves).shared == {}
    decreases |moves|
  {
    if moves == [] {
      assert s.exclusive == Some(p);
    } else {
      HeldStep(s, moves[0], p);
      StepInv(s, moves[0]);
      WritersOnlyStop(Apply(s, moves[0]), p, moves[1..]);
    }
  }

  /** The scan of exclusive() leaves no live writer but the caller's own. */
  lemma ExclusiveScanned(s: Lease, p: Pid)
    requires Inv(s)
    requires At(s, p).ExclScan? && At(s, p).todo == {}
    ensures forall n | n in LiveWriters(s) :: At(s, p).owned == Some(n)
  {
    forall n | n in LiveWriters(s)
      ensures At(s, p).owned == Some(n)
    {
      assert MayMeet(At(s, p), n);
    }
  }

  /**
   A successful quiescent() finds nobody writing, and nobody writes again for as long as the guard is
   kept, whatever every other process does.
  */
  lemma QuietUntilDropped(s: Lease, p: Pid, moves: seq<Move>)
    requires Inv(s)
    requires At(s, p).QuietScan? && Next(s, p, ScanDone).Some?
    requires Keeps(Apply(s, Move(p, ScanDone)), p, moves)
    ensures LiveWriters(Run(Apply(s, Move(p, ScanDone)), moves)) == {}
  {
    var t := Apply(s, Move(p, ScanDone));
    assert forall n :: Live(s, n) ==> MayMeet(At(s, p), n);
    assert LiveWriters(t) == LiveWriters(s) == {};
    StepInv(s, Move(p, ScanDone));
    WritersOnlyStop(t, p, moves);
  }

  /** The gate is kept across both blocking re-locks, so neither ever meets an exclusive holder. */
  lemma RelockNeverWaits(moves: seq<Move>, p: Pid)
    requires At(Run(EMPTY, moves), p).Relock?
    ensures Next(Run(EMPTY, moves), p, LockShared).Some?
  {
    var s := Run(EMPTY, moves);
    InitInv();
    RunInv(EMPTY, moves);
    ExclusiveOwnsTheGate(s);
    assert s.gate == Some(p);
  }

  /** An entering process that has the gate always gets its shared lease: only the gate refuses starts. */
  lemma OnlyTheGateRefuses(moves: seq<Move>, p: Pid, scan: bool)
    requires At(Run(EMPTY, moves), p).EnterGate?
    ensures HoldsShared(At(Apply(Run(EMPTY, moves), Move(p, TryShared(scan))), p))
  {
    var s := Run(EMPTY, moves);
    InitInv();
    RunInv(EMPTY, moves);
    ExclusiveOwnsTheGate(s);
    assert s.gate == Some(p);
  }

  /** Only an unlocked lease file is ever removed; whatever is not a lease file is left as it was. */
  lemma PrunesOnlyStale(s: Lease, m: Move, n: Name)
    requires Inv(s)
    requires n in s.writers
    ensures n !in Apply(s, m).writers ==> s.writers[n] == Lock(None) && m.event == ScanOne(n)
    ensures s.writers[n].Foreign? ==> n in Apply(s, m).writers && Apply(s, m).writers[n].Foreign?
  {
    if m.event.Unregister? && At(s, m.pid).Writing? {
      assert Owns(s, m.pid, At(s, m.pid).name);
    }
  }

  /** A scan reads on past exactly the passable entries, and drops the stale ones that are not its own. */
  lemma ScanPassesIff(s: Lease, p: Pid, n: Name)
    requires var pc := At(s, p); (pc.EnterScan? || pc.ExclScan? || pc.QuietScan?) && n in pc.todo
    ensures Next(s, p, ScanOne(n)).Some? <==> Passable(s, At(s, p), n)
    ensures Next(s, p, ScanOne(n)).Some? ==>
              var pc := At(s, p);
              var own := pc.ExclScan? && pc.owned == Some(n);
              Next(s, p, ScanOne(n)).value.writers == if Live(s, n) || own then s.writers else s.writers - {n}
  {
  }

  /** An engine of a native parent is live from its registration behind the gate until it stops. */
  lemma RegistersAndStops(s: Lease, p: Pid, n: Name)
    requires Inv(s) && At(s, p).Outside? && s.gate.None? && (n in s.writers ==> s.writers[n] == Lock(None))
    ensures var a := Apply(s, Move(p, AcquireGate));
            var b := Apply(a, Move(p, Register(n)));
            var c := Apply(b, Move(p, ReleaseGate));
            var d := Apply(c, Move(p, Unregister));
            && At(c, p) == Writing(n) && c.gate.None? && LiveWriters(c) == LiveWriters(s) + {n}
            && At(d, p).Outside? && LiveWriters(d) == LiveWriters(s)
  {
    var a := Apply(s, Move(p, AcquireGate));
    var b := Apply(a, Move(p, Register(n)));
    var c := Apply(b, Move(p, ReleaseGate));
    assert b.writers == s.writers[n := Lock(Some(p))] && c.writers == b.writers;
    var d := Apply(c, Move(p, Unregister));
    assert d.writers == s.writers[n := Lock(None)];
    assert !Live(s, n);
  }

  /** Leaving gives the shared lease back and touches nothing else. */
  lemma LeaveGivesBack(s: Lease, p: Pid)
    requires Inv(s) && At(s, p).Inside?
    ensures var t := Apply(s, Move(p, Leave));
            At(t, p).Outside? && t.shared == s.shared - {p} && t.gate == s.gate && t.writers == s.writers
  {
  }

  /** The lock, not the file, is the evidence: a dead engine's file stays and no longer counts as live. */
  lemma CrashReleases(s: Lease, p: Pid)
    requires Inv(s)
    ensures !HoldsGate(At(Apply(s, Move(p, Crash)), p))
    ensures LiveWriters(Apply(s, Move(p, Crash))) == (set n | n in LiveWriters(s) && !Owns(s, p, n))
    ensures Apply(s, Move(p, Crash)).writers.Keys == s.writers.Keys
  {
    var t := Apply(s, Move(p, Crash));
    forall n
      ensures n in LiveWriters(t) <==> n in LiveWriters(s) && !Owns(s, p, n)
    {
    }
  }
}
