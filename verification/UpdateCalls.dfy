/**
 install() and the calls it makes, in source order, with every other thread and process free to run
 between any two statements. The replies of the engine, the backup, the installer and the system are
 arbitrary parameters. In a `calm` call nobody else runs and every registry entry can be read.
 */
module UpdateCalls {
  import opened Basics
  import opened ProfileLease
  import opened UpdateMachine
  import opened UpdateSafety
  import opened UpdateProgress

  predicate Beside(h: Happening) {
    !h.Mine? && !h.Install?
  }

  lemma ForeignStep(s: App, h: Happening)
    requires UpdateMachine.Inv(s) && !s.install.Idle? && Beside(h)
    ensures Do(s, h).install == s.install
    ensures At(Do(s, h).lease, ME) == At(s.lease, ME)
  {
    if h.Elsewhere? && h.move.pid != ME {
      OthersStay(s.lease, h.move, ME);
    } else if h.EngineDies? && h.pid != ME {
      OthersStay(s.lease, Move(h.pid, Crash), ME);
    }
  }

  /** How far a lease call still has to go before it returns to its caller. */
  function Rank(pc: Pc): nat {
    match pc
    case ExclGate => 6
    case ExclUnlocked => 5
    case ExclScan(_, _) => 4
    case QuietScan(_) => 4
    case Upgrade => 3
    case Relock => 2
    case Admitted => 1
    case _ => 0
  }

  function Unread(pc: Pc): nat {
    if pc.ExclScan? || pc.QuietScan? then |pc.todo| else 0
  }

  /** Inside one of the calls of profile.rs. */
  predicate Calling(i: InstallPc) {
    i == Asking(Leasing) || i == Down(Quieting) || i == Down(Dropping) || (i.Asking? && i.ask.Letting?)
  }

  /** How such a call may return. */
  predicate Ends(i: InstallPc, j: InstallPc) {
    match i
    case Asking(Leasing) => j == Asking(Leased) || j == Returned(Turned)
    case Asking(Letting(k)) => j == Returned(k)
    case Down(Quieting) => j == Down(Quiesced) || j == Down(Dropping)
    case Down(Dropping) => j == Down(Recover)
    case _ => false
  }

  /** The call that comes next in profile.rs at this point; `n` is the entry a scan has reached. */
  function CallAt(l: Lease, fails: bool, owned: Option<Name>, n: Name): Event {
    var pc := At(l, ME);
    match pc
    case ExclGate => if fails then ReleaseGate else Unlock
    case ExclUnlocked => TryExclusive(owned)
    case Upgrade => Event.DropUpgrade
    case Relock => LockShared
    case Admitted => ReleaseGate
    case ExclScan(_, todo) =>
      if todo == {} then ScanDone else if fails || Inspect(l, pc, n).None? then Abandon else ScanOne(n)
    case QuietScan(todo) =>
      if todo == {} then ScanDone else if fails || Inspect(l, pc, n).None? then Abandon else ScanOne(n)
    case _ => ReleaseGate
  }

  predicate Closer(before: Pc, after: Pc) {
    Rank(after) < Rank(before) || (Rank(after) == Rank(before) && Unread(after) < Unread(before))
  }

  /** The call is possible, gets closer to the end of the caller, and stays in it or ends it. */
  ghost predicate Advances(s: App, e: Event) {
    && MineStep(s, e).Some?
    && Closer(At(s.lease, ME), At(MineStep(s, e).value.lease, ME))
    && (MineStep(s, e).value.install == s.install || Ends(s.install, MineStep(s, e).value.install))
  }

  predicate Points(pc: Pc, n: Name) {
    (pc.ExclScan? || pc.QuietScan?) && pc.todo != {} ==> n in pc.todo
  }

  /** The same on the lease alone. */
  lemma ScanAdvances(l: Lease, fails: bool, owned: Option<Name>, n: Name)
    requires (At(l, ME).ExclScan? || At(l, ME).QuietScan?) && Points(At(l, ME), n)
    ensures var t := ProfileLease.Next(l, ME, CallAt(l, fails, owned, n));
            t.Some? && Closer(At(l, ME), At(t.value, ME))
  {
  }

  lemma LeasingCall(s: App, fails: bool, owned: Option<Name>, n: Name)
    requires LeaseInv(s) && s.install == Asking(Leasing) && Points(At(s.lease, ME), n)
    ensures Advances(s, CallAt(s.lease, fails, owned, n))
  {
    ExclusiveOwnsTheGate(s.lease);
    assert s.lease.gate == Some(ME) <==> HoldsGate(At(s.lease, ME));
    hide ProfileLease.Inv;
    match At(s.lease, ME)
    case ExclScan(_, _) => ScanAdvances(s.lease, fails, owned, n);
    case ExclGate =>
    case ExclUnlocked =>
    case Relock =>
    case Admitted =>
    case _ =>
  }

  lemma QuietingCall(s: App, fails: bool, owned: Option<Name>, n: Name)
    requires LeaseInv(s) && s.install == Down(Quieting) && Points(At(s.lease, ME), n)
    ensures Advances(s, CallAt(s.lease, fails, owned, n))
  {
    hide ProfileLease.Inv;
    match At(s.lease, ME)
    case QuietScan(_) => ScanAdvances(s.lease, fails, owned, n);
    case Upgrade =>
    case _ =>
  }

  lemma LettingCall(s: App, fails: bool, owned: Option<Name>, n: Name)
    requires LeaseInv(s) && (s.install == Down(Dropping) || (s.install.Asking? && s.install.ask.Letting?))
    ensures Advances(s, CallAt(s.lease, fails, owned, n))
  {
    ExclusiveOwnsTheGate(s.lease);
    assert s.lease.gate == Some(ME) <==> HoldsGate(At(s.lease, ME));
  }

  lemma AnyCall(s: App, fails: bool, owned: Option<Name>, n: Name)
    requires UpdateMachine.Inv(s) && Calling(s.install) && Points(At(s.lease, ME), n)
    ensures Advances(s, CallAt(s.lease, fails, owned, n))
  {
    hide UpdateMachine.Core, ProfileLease.Inv, Advances;
    if s.install == Asking(Leasing) {
      LeasingCall(s, fails, owned, n);
    } else if s.install == Down(Quieting) {
      QuietingCall(s, fails, owned, n);
    } else {
      LettingCall(s, fails, owned, n);
    }
  }

  /** The control flow of install(): where each statement may lead. */
  predicate Leads(i: InstallPc, good: bool, j: InstallPc) {
    match i
    case Asking(Begun) => j == Returned(Turned) || (good && j == Asking(HasConnection))
    case Asking(Leased) => j == Asking(Letting(Turned)) || j == Claiming(Claimed)
    case Asking(_) => j == i
    case Claiming(Claimed) => j == Claiming(Declined) || j == Frozen(SavesClosed)
    case Claiming(Declined) => j == Asking(Letting(Turned))
    case Claiming(Reopened) => j == Asking(Letting(Cancelled))
    case Claiming(ReleaseAfter(k)) => j == Returned(k)
    case Frozen(f) => FrozenLeads(f, good, j)
    case Releasing(k) => j == Asking(Letting(k))
    case Down(Quiesced) => j == Down(if good then BackedUp else Dropping)
    case Down(BackedUp) => j == Down(if good then Restarting else Dropping)
    case Down(Recover) => j == Down(Respawn)
    case Down(Respawn) => j == Rising(Settle(NotRecovered)) || (j.Rising? && j.rising.AwaitReady?)
    case Down(_) => j == i
    case Rising(r) => RisingLeads(r, good, j)
    case _ => true
  }

  predicate FrozenLeads(f: FrozenPc, good: bool, j: InstallPc) {
    match f
    case SavesClosed => j == Frozen(Marked)
    case Marked => j == Frozen(if good then Prepared else Cancelling)
    case Cancelling => j == Frozen(if good then CancelAcked else Unavailable(Uncertain))
    case CancelAcked => j == Frozen(Reopening)
    case Reopening => j == Claiming(Reopened)
    case Prepared => j == Frozen(Unavailable(Stuck)) || j == Down(Stopped)
    case Unavailable(k) => j == Releasing(k)
  }

  predicate RisingLeads(r: RisingPc, good: bool, j: InstallPc) {
    match r
    case AwaitReady(p) => j == Rising(if good then MarkReady(p) else Reap)
    case MarkReady(p) => j == Rising(Connect(p))
    case Connect(p) => j == Rising(Settle(Recovered(p)))
    case Reap => j == Rising(Settle(NotRecovered))
    case Settle(k) => j == Rising(ReopenAfter(k))
    case ReopenAfter(k) => j == Claiming(ReleaseAfter(k))
  }

  lemma StepLeads(s: App, good: bool, spare: Pid)
    ensures Leads(s.install, good, Do(s, Happening.Install(good, spare)).install)
  {
    match s.install
    case Asking(a) => AskLeads(s, good);
    case Claiming(c) => ClaimLeads(s);
    case Frozen(f) => StepFrozenLeads(s, good);
    case Down(d) => DownLeads(s, good, spare);
    case Rising(r) => StepRisingLeads(s, good);
    case _ =>
  }

  lemma AskLeads(s: App, good: bool)
    requires s.install.Asking?
    ensures Leads(s.install, good, if AskStep(s, good).Some? then AskStep(s, good).value.install else s.install)
  {
  }

  lemma ClaimLeads(s: App)
    requires s.install.Claiming?
    ensures ClaimStep(s).Some? && forall good :: Leads(s.install, good, ClaimStep(s).value.install)
  {
  }

  lemma StepFrozenLeads(s: App, good: bool)
    requires s.install.Frozen?
    ensures FrozenLeads(s.install.frozen, good, FrozenStep(s, good).install)
  {
  }

  lemma DownLeads(s: App, good: bool, spare: Pid)
    requires s.install.Down?
    ensures Leads(s.install, good, if DownStep(s, good, spare).Some? then DownStep(s, good, spare).value.install else s.install)
  {
  }

  lemma StepRisingLeads(s: App, good: bool)
    requires s.install.Rising?
    ensures RisingLeads(s.install.rising, good, RisingStep(s, good).install)
  {
  }

  // ---- A calm update ----

  /** What the world outside this process answers, where install() asks it. */
  datatype Replies = Replies(
    client: bool,         // a client for the connection can be built
    prepared: bool,       // the engine prepared the update and listed what to back up
    acknowledged: bool,   // it confirmed a cancellation
    exits: bool,          // it was gone when stop_engine looked
    backup: bool,
    installer: bool,
    spawns: bool,         // a replacement engine was started
    ready: bool)          // and announced itself in time

  /** The live leases left are those of the child this process owns, under the name it passes over. */
  predicate OnlyOurs(s: App, owned: Option<Name>) {
    forall n :: n in s.lease.writers ==>
      && s.lease.writers[n].Lock?
      && (Live(s.lease, n) ==> owned == Some(n) && ChildRuns(s.sh) && Owns(s.lease, s.sh.slot.value.pid, n))
  }

  /** Nothing but a reply can stop an update that starts here. */
  predicate Undisputed(s: App, owned: Option<Name>) {
    && s.sh.connection.Some? && !s.sh.error && !s.sh.uiClosing && !s.sh.closing && s.sh.saves == Saves(false, 0, 0)
    && s.lease.gate.None? && s.lease.shared == {ME} && OnlyOurs(s, owned)
  }

  /** How install() must end then. */
  predicate Answers(running: bool, r: Replies, k: Option<Kind>) {
    if !r.client then k == Some(Turned)
    else if !r.prepared then k == Some(if r.acknowledged then Cancelled else Uncertain)
    else if running && !r.exits then k == Some(Stuck)
    else if r.backup && r.installer then k.None?
    else Recovery(r, k)
  }

  /** How recovery ends. */
  predicate Recovery(r: Replies, k: Option<Kind>) {
    k.Some? && (if r.spawns && r.ready then k.value.Recovered? else k.value.NotRecovered?)
  }

  /** One step of a call of profile.rs, taken while nobody else ran and the entry could be read. */
  ghost predicate CalmCall(s: App, t: App, owned: Option<Name>, n: Name) {
    Points(At(s.lease, ME), n) && MineStep(s, CallAt(s.lease, false, owned, n)) == Some(t)
  }

  lemma SameOurs(s: App, t: App, owned: Option<Name>)
    requires OnlyOurs(s, owned) && t.lease == s.lease && t.sh.slot == s.sh.slot && t.sh.exited == s.sh.exited
    ensures OnlyOurs(t, owned)
  {
  }

  /** Only a spawn looks at the new process identity. */
  lemma SpareOnlySpawns(s: App, good: bool)
    requires s.install != Down(Respawn)
    ensures forall a, b :: Do(s, Happening.Install(good, a)) == Do(s, Happening.Install(good, b))
  {
  }

  lemma RespawnIff(s: App, good: bool, spare: Pid)
    requires UpdateMachine.Inv(s) && !Used(s.sh, spare)
    ensures var j := Do(s, Happening.Install(good, spare)).install;
            s.install == Down(Respawn) ==> j.Rising? && (good <==> j.rising.AwaitReady?)
  {
  }

  /** On the way through exclusive() with nothing in the way. */
  predicate Passing(l: Lease, owned: Option<Name>) {
    match At(l, ME)
    case ExclGate => l.shared == {ME}
    case ExclUnlocked => l.shared == {}
    case ExclScan(o, todo) => o == owned && todo <= l.writers.Keys
    case _ => false
  }

  lemma CalmLeasing(s: App, owned: Option<Name>, n: Name)
    requires UpdateMachine.Inv(s) && s.install == Asking(Leasing) && Passing(s.lease, owned) && OnlyOurs(s, owned)
    requires Points(At(s.lease, ME), n) && MineStep(s, CallAt(s.lease, false, owned, n)).Some?
    ensures var t := MineStep(s, CallAt(s.lease, false, owned, n)).value;
            t.sh == s.sh && OnlyOurs(t, owned) && (t.install == Asking(Leased) || (t.install == s.install && Passing(t.lease, owned)))
  {
    UpgradeIsFree(s.lease);
    hide ProfileLease.Inv, UpdateMachine.Core, ClosedInv;
    match At(s.lease, ME)
    case ExclGate =>
    case ExclUnlocked =>
    case ExclScan(_, todo) =>
      if todo != {} {
        ScanPassesIff(s.lease, ME, n);
        assert Passable(s.lease, At(s.lease, ME), n);
      }
  }

  lemma UpgradeIsFree(l: Lease)
    requires ProfileLease.Inv(l)
    ensures At(l, ME).ExclUnlocked? ==> l.exclusive.None?
  {
    ExclusiveOwnsTheGate(l);
    assert l.gate == Some(ME) <==> HoldsGate(At(l, ME));
  }

  lemma CalmQuieting(s: App, n: Name)
    requires UpdateMachine.Inv(s) && s.install == Down(Quieting) && Clear(s.lease, None)
    requires At(s.lease, ME).QuietScan? && At(s.lease, ME).todo <= s.lease.writers.Keys
    requires Points(At(s.lease, ME), n) && MineStep(s, CallAt(s.lease, false, None, n)).Some?
    ensures var t := MineStep(s, CallAt(s.lease, false, None, n)).value;
            && t.sh == s.sh && Clear(t.lease, None)
            && (t.install == Down(Quiesced)
                || (t.install == s.install && At(t.lease, ME).QuietScan? && At(t.lease, ME).todo <= t.lease.writers.Keys))
  {
    hide ProfileLease.Inv, UpdateMachine.Core, ClosedInv;
    if At(s.lease, ME).todo != {} {
      ScanPassesIff(s.lease, ME, n);
      assert Passable(s.lease, At(s.lease, ME), n);
    }
  }

  /** The engine's own lease goes with it, and then no writer is left. */
  lemma DeathClears(s: App, owned: Option<Name>)
    requires UpdateMachine.Inv(s) && s.install == Frozen(Prepared) && OnlyOurs(s, owned)
    ensures var t := if s.sh.slot.Some? then Do(s, EngineDies(s.sh.slot.value.pid)) else s;
            && t.install == s.install && t.sh == s.sh.(exited := t.sh.exited) && !ChildRuns(t.sh)
            && Clear(t.lease, None)
  {
  }

  /** A process identity that is still free. */
  method Fresh(h: Shared) returns (spare: Pid)
    ensures !Used(h, spare)
  {
    var used := {ME} + h.spawned + h.exited;
    spare := 0;
    while used != {}
      invariant forall p: Pid :: Used(h, p) ==> p in used || p < spare
      decreases used
    {
      var p :| p in used;
      spare := if p < spare then spare else p + 1;
      used := used - {p};
    }
  }

  class Desktop {
    var s: App

    constructor (first: App)
      requires Initial(first)
      ensures s == first && UpdateMachine.Inv(s)
    {
      s := first;
      InitialInv(first);
    }

    method Others(calm: bool)
      requires UpdateMachine.Inv(s) && !s.install.Idle?
      modifies this
      ensures UpdateMachine.Inv(s)
      ensures s.install == old(s.install) && At(s.lease, ME) == old(At(s.lease, ME))
      ensures calm ==> s == old(s)
    {
      var script: seq<Happening> := *;
      var i := 0;
      while i < |script|
        invariant UpdateMachine.Inv(s)
        invariant s.install == old(s.install) && At(s.lease, ME) == old(At(s.lease, ME))
        invariant calm ==> s == old(s)
      {
        if !calm && Beside(script[i]) {
          ForeignStep(s, script[i]);
          UpdateMachine.StepInv(s, script[i]);
          s := Do(s, script[i]);
        }
        i := i + 1;
      }
    }

    /** The next statement of install(), after whatever the others do first. */
    method Go(good: bool, calm: bool)
      requires UpdateMachine.Inv(s) && !s.install.Idle?
      modifies this
      ensures UpdateMachine.Inv(s)
      ensures Leads(old(s.install), good, s.install)
      ensures calm && old(s.install) != Down(Respawn) ==> forall spare :: s == Do(old(s), Happening.Install(good, spare))
      ensures old(s.install) == Down(Respawn) ==> (good <==> s.install.rising.AwaitReady?)
    {
      hide UpdateMachine.Inv;
      Others(calm);
      var spare := Fresh(s.sh);
      StepLeads(s, good, spare);
      if s.install != Down(Respawn) {
        SpareOnlySpawns(s, good);
      }
      RespawnIff(s, good, spare);
      UpdateMachine.StepInv(s, Happening.Install(good, spare));
      s := Do(s, Happening.Install(good, spare));
    }

    method Lease(e: Event)
      requires UpdateMachine.Inv(s) && MineStep(s, e).Some?
      modifies this
      ensures UpdateMachine.Inv(s) && s == MineStep(old(s), e).value
    {
      UpdateMachine.StepInv(s, Mine(e));
      s := MineStep(s, e).value;
    }

    /** The call that follows at this point of profile.rs; a scan may fail at any entry. */
    method LeaseCall(owned: Option<Name>, calm: bool) returns (ghost entry: Name)
      requires UpdateMachine.Inv(s)
      requires Calling(s.install)
      modifies this
      ensures UpdateMachine.Inv(s)
      ensures s.install == old(s.install) || Ends(old(s.install), s.install)
      ensures Closer(old(At(s.lease, ME)), At(s.lease, ME))
      ensures calm ==> CalmCall(old(s), s, owned, entry)
    {
      hide UpdateMachine.Inv;
      Others(calm);
      var fails: bool := *;
      fails := fails && !calm;
      var n: Name := *;
      if (At(s.lease, ME).ExclScan? || At(s.lease, ME).QuietScan?) && At(s.lease, ME).todo != {} {
        n :| n in At(s.lease, ME).todo;
      }
      AnyCall(s, fails, owned, n);
      ghost var before := s;
      Lease(CallAt(s.lease, fails, owned, n));
      entry := n;
      assert calm ==> before == old(s) && CalmCall(before, s, owned, n);
    }

    /** Runs a call of profile.rs to its end. It always ends: no lock it waits for can be held against it. */
    method Finish(owned: Option<Name>, calm: bool)
      requires UpdateMachine.Inv(s) && Calling(s.install)
      modifies this
      ensures UpdateMachine.Inv(s) && Ends(old(s.install), s.install)
      ensures calm ==> s.sh == old(s.sh) && s.broken == old(s.broken)
    {
      hide UpdateMachine.Inv;
      var call := s.install;
      while s.install == call
        invariant UpdateMachine.Inv(s)
        invariant s.install == call || Ends(call, s.install)
        invariant calm ==> s.sh == old(s.sh) && s.broken == old(s.broken)
        decreases s.install == call, Rank(At(s.lease, ME)), Unread(At(s.lease, ME))
      {
        ghost var _ := LeaseCall(owned, calm);
      }
    }

    /** exclusive() behind the gate. */
    method Upgrading(owned: Option<Name>, calm: bool)
      requires UpdateMachine.Inv(s) && s.install == Asking(Leasing)
      modifies this
      ensures UpdateMachine.Inv(s) && Ends(old(s.install), s.install)
      ensures calm && Passing(old(s.lease), owned) && OnlyOurs(old(s), owned) ==>
                s.install == Asking(Leased) && s.sh == old(s.sh) && OnlyOurs(s, owned)
    {
      hide UpdateMachine.Inv;
      ghost var calmly := calm && Passing(s.lease, owned) && OnlyOurs(s, owned);
      while s.install == Asking(Leasing)
        invariant UpdateMachine.Inv(s)
        invariant s.install == Asking(Leasing) || Ends(Asking(Leasing), s.install)
        invariant calmly ==> s.sh == old(s.sh) && OnlyOurs(s, owned)
        invariant calmly ==> s.install == Asking(Leased) || (s.install == Asking(Leasing) && Passing(s.lease, owned))
        decreases s.install == Asking(Leasing), Rank(At(s.lease, ME)), Unread(At(s.lease, ME))
      {
        ghost var before := s;
        ghost var n := LeaseCall(owned, calm);
        if calmly {
          CalmLeasing(before, owned, n);
        }
      }
    }

    /** quiescent(). */
    method Settling(calm: bool)
      requires UpdateMachine.Inv(s) && s.install == Down(Quieting)
      modifies this
      ensures UpdateMachine.Inv(s) && Ends(old(s.install), s.install)
      ensures calm && Clear(old(s.lease), None) && old(At(s.lease, ME).todo) == old(s.lease.writers.Keys) ==>
                s.install == Down(Quiesced) && s.sh == old(s.sh)
    {
      assert At(s.lease, ME).QuietScan?;
      hide UpdateMachine.Inv;
      ghost var calmly := calm && Clear(s.lease, None) && At(s.lease, ME).todo == s.lease.writers.Keys;
      while s.install == Down(Quieting)
        invariant UpdateMachine.Inv(s)
        invariant s.install == Down(Quieting) || Ends(Down(Quieting), s.install)
        invariant calmly ==> s.sh == old(s.sh) && Clear(s.lease, None)
        invariant calmly ==>
                    || s.install == Down(Quiesced)
                    || (s.install == Down(Quieting) && At(s.lease, ME).QuietScan? && At(s.lease, ME).todo <= s.lease.writers.Keys)
        decreases s.install == Down(Quieting), Rank(At(s.lease, ME)), Unread(At(s.lease, ME))
      {
        ghost var before := s;
        ghost var n := LeaseCall(None, calm);
        if calmly {
          CalmQuieting(before, n);
        }
      }
    }

    method Exclusive(owned: Option<Name>, calm: bool)
      requires UpdateMachine.Inv(s) && s.install == Asking(HasConnection)
      modifies this
      ensures UpdateMachine.Inv(s) && (s.install == Asking(Leased) || s.install == Returned(Turned))
      ensures calm && old(s.lease.gate).None? && old(s.lease.shared) == {ME} && OnlyOurs(old(s), owned) ==>
                s.install == Asking(Leased) && s.sh == old(s.sh) && OnlyOurs(s, owned)
    {
      Others(calm);
      Lease(AcquireGate);
      if s.install == Asking(Leasing) {
        Upgrading(owned, calm);
      }
    }

    /** The checks and claims before anything is frozen. */
    method Admit(owned: Option<Name>, client: bool, calm: bool) returns (frozen: bool)
      requires UpdateMachine.Inv(s) && s.install == Asking(Begun)
      modifies this
      ensures UpdateMachine.Inv(s)
      ensures s.install == if frozen then Frozen(SavesClosed) else Returned(Turned)
      ensures !client ==> !frozen
      ensures calm && client && Undisputed(old(s), owned) ==>
                && frozen && OnlyOurs(s, owned)
                && s.sh == old(s.sh).(closing := true, saves := Saves(true, 0, 0))
    {
      hide UpdateMachine.Inv, OnlyOurs;
      ghost var first := s;
      Go(client, calm);
      assert calm ==> s == Do(first, Happening.Install(client, ME));
      if s.install.Returned? {
        return false;
      }
      assert calm ==> s.lease == first.lease && s.sh == first.sh;
      if calm && OnlyOurs(first, owned) {
        SameOurs(first, s, owned);
      }
      Exclusive(owned, calm);
      if s.install.Returned? {
        return false;
      }
      frozen := ClaimClosing(owned, calm);
    }

    method ClaimClosing(ghost owned: Option<Name>, calm: bool) returns (frozen: bool)
      requires UpdateMachine.Inv(s) && s.install == Asking(Leased)
      modifies this
      ensures UpdateMachine.Inv(s)
      ensures s.install == if frozen then Frozen(SavesClosed) else Returned(Turned)
      ensures calm && !old(s.sh.closing) && old(s.sh.saves) == Saves(false, 0, 0) && OnlyOurs(old(s), owned) ==>
                frozen && s.sh == old(s.sh).(closing := true, saves := Saves(true, 0, 0)) && OnlyOurs(s, owned)
    {
      hide UpdateMachine.Inv, OnlyOurs;
      ghost var first := s;
      Go(true, calm);
      assert calm ==> s == Do(first, Happening.Install(true, ME));
      if s.install == Claiming(Claimed) {
        ghost var claimed := s;
        assert calm ==> claimed == first.(sh := first.sh.(closing := true), install := Claiming(Claimed));
        Go(true, calm);
        assert calm ==> s == Do(claimed, Happening.Install(true, ME));
        if s.install == Frozen(SavesClosed) {
          assert calm ==> s.lease == claimed.lease && s.sh.slot == claimed.sh.slot && s.sh.exited == claimed.sh.exited;
          if calm && OnlyOurs(first, owned) {
            SameOurs(first, s, owned);
          }
          return true;
        }
        Go(true, calm);
      }
      Finish(None, calm);
      return false;
    }

    /** prepare_engine, backup_plan and, when either fails, cancel_preparation. */
    method Prepare(ghost owned: Option<Name>, r: Replies, calm: bool) returns (k: Option<Kind>)
      requires UpdateMachine.Inv(s) && s.install == Frozen(SavesClosed)
      modifies this
      ensures UpdateMachine.Inv(s)
      ensures k == if r.prepared then None else Some(if r.acknowledged then Cancelled else Uncertain)
      ensures s.install == if k.Some? then Returned(k.value) else Frozen(Prepared)
      ensures calm && k.None? && OnlyOurs(old(s), owned) ==>
                s.sh == old(s.sh).(uiClosing := true) && OnlyOurs(s, owned)
    {
      hide UpdateMachine.Inv, OnlyOurs;
      ghost var first := s;
      Go(true, calm);
      assert calm ==> s == Do(first, Happening.Install(true, ME));
      ghost var marked := s;
      Go(r.prepared, calm);
      assert calm ==> s == Do(marked, Happening.Install(r.prepared, ME));
      if r.prepared {
        if calm && OnlyOurs(first, owned) {
          SameOurs(first, s, owned);
        }
        return None;
      }
      Go(r.acknowledged, calm);
      if r.acknowledged {
        ReopenSaves(calm);
        return Some(Cancelled);
      }
      GiveUp(calm);
      return Some(Uncertain);
    }

    method ReopenSaves(calm: bool)
      requires UpdateMachine.Inv(s) && s.install == Frozen(CancelAcked)
      modifies this
      ensures UpdateMachine.Inv(s) && s.install == Returned(Cancelled)
    {
      hide UpdateMachine.Inv;
      Go(true, calm);
      Go(true, calm);
      Go(true, calm);
      Finish(None, calm);
    }

    /** unavailable(), and the guard dropped on return. */
    method GiveUp(calm: bool)
      requires UpdateMachine.Inv(s) && s.install.Frozen? && s.install.frozen.Unavailable?
      modifies this
      ensures UpdateMachine.Inv(s) && s.install == Returned(old(s.install).frozen.kind)
    {
      hide UpdateMachine.Inv;
      Go(true, calm);
      Go(true, calm);
      Finish(None, calm);
    }

    /** Waiting for the engine: in a calm update it goes exactly if the reply says so. */
    method AwaitExit(ghost owned: Option<Name>, exits: bool, calm: bool)
      requires UpdateMachine.Inv(s) && s.install == Frozen(Prepared)
      modifies this
      ensures UpdateMachine.Inv(s) && s.install == Frozen(Prepared)
      ensures calm ==> s.sh == old(s.sh).(exited := s.sh.exited) && (ChildRuns(s.sh) <==> ChildRuns(old(s.sh)) && !exits)
      ensures calm && !ChildRuns(s.sh) && OnlyOurs(old(s), owned) ==> Clear(s.lease, None)
    {
      Others(calm);
      if exits && ChildRuns(s.sh) {
        if calm && OnlyOurs(s, owned) {
          DeathClears(s, owned);
        }
        ForeignStep(s, EngineDies(s.sh.slot.value.pid));
        UpdateMachine.StepInv(s, EngineDies(s.sh.slot.value.pid));
        s := Do(s, EngineDies(s.sh.slot.value.pid));
      }
    }

    /** stop_engine and the second look at the registry. */
    method StopEngine(ghost owned: Option<Name>, exits: bool, calm: bool) returns (k: Option<Kind>)
      requires UpdateMachine.Inv(s) && s.install == Frozen(Prepared)
      modifies this
      ensures UpdateMachine.Inv(s)
      ensures k.Some? ==> k.value.Stuck? && s.install == Returned(Stuck)
      ensures k.None? ==> s.install == Down(Quiesced) || s.install == Down(Dropping)
      ensures calm ==> (k.Some? <==> ChildRuns(old(s.sh)) && !exits)
      ensures calm && k.None? && OnlyOurs(old(s), owned) ==> s.install == Down(Quiesced)
    {
      AwaitExit(owned, exits, calm);
      hide UpdateMachine.Inv, Clear;
      ghost var waited := s;
      Go(true, calm);
      assert calm ==> s == Do(waited, Happening.Install(true, ME));
      if s.install.Frozen? {
        GiveUp(calm);
        return Some(Stuck);
      }
      Others(calm);
      assert calm ==> s.lease == waited.lease;
      Second(calm);
      return None;
    }

    method Second(calm: bool)
      requires UpdateMachine.Inv(s) && s.install == Down(Stopped)
      modifies this
      ensures UpdateMachine.Inv(s) && (s.install == Down(Quiesced) || s.install == Down(Dropping))
      ensures calm && Clear(old(s.lease), None) ==> s.install == Down(Quiesced)
    {
      Lease(BeginQuiescent);
      Settling(calm);
    }

    /** install_prepared: the installer is called after the backup returned Ok, and never otherwise. */
    method InstallPrepared(backup: bool, installer: bool, calm: bool) returns (installed: bool)
      requires UpdateMachine.Inv(s) && s.install == Down(Quiesced)
      modifies this
      ensures UpdateMachine.Inv(s)
      ensures s.install == Down(if installed then Restarting else Dropping)
      ensures installed <==> backup && installer
    {
      hide UpdateMachine.Inv;
      Go(backup, calm);
      if !backup {
        return false;
      }
      Others(calm);
      BackedUpIsSafe(s);
      assert NothingWrites(s);
      Go(installer, calm);
      return installer;
    }

    /** The dropped guard, then recover(): a new engine exactly if one starts and announces itself. */
    method RecoverEngine(r: Replies, calm: bool) returns (k: Kind)
      requires UpdateMachine.Inv(s) && s.install == Down(Dropping)
      modifies this
      ensures UpdateMachine.Inv(s) && s.install == Returned(k)
      ensures if r.spawns && r.ready then k.Recovered? else k.NotRecovered?
    {
      hide UpdateMachine.Inv;
      Finish(None, calm);
      Go(true, calm);
      StartBackend(r, calm);
      k := s.install.rising.kind;
      Go(true, calm);
      Go(true, calm);
      Go(true, calm);
    }

    method StartBackend(r: Replies, calm: bool)
      requires UpdateMachine.Inv(s) && s.install == Down(Respawn)
      modifies this
      ensures UpdateMachine.Inv(s) && s.install.Rising? && s.install.rising.Settle?
      ensures if r.spawns && r.ready then s.install.rising.kind.Recovered? else s.install.rising.kind.NotRecovered?
    {
      hide UpdateMachine.Inv;
      Go(r.spawns, calm);
      if s.install.rising.AwaitReady? {
        Go(r.ready, calm);
        Go(true, calm);
        if r.ready {
          Go(true, calm);
        }
      }
    }

    /** None: the installer took over. Otherwise the error, in a state FailedInstallIsConsistent describes. */
    method Install(owned: Option<Name>, r: Replies, calm: bool) returns (k: Option<Kind>)
      requires UpdateMachine.Inv(s) && s.install == Asking(Begun)
      modifies this
      ensures UpdateMachine.Inv(s)
      ensures s.install == if k.Some? then Returned(k.value) else Down(Restarting)
      ensures k.Some? ==>
                && (s.sh.saves.closing <==> QuitShutSaves(s.sh.quit) || s.broken || Bad(k.value))
                && (s.sh.closing <==> !s.sh.quit.NoQuit?)
                && (Bad(k.value) ==> Dead(s.sh))
      ensures k == Some(Turned) || k == Some(Stuck) || Answers(false, r, k) || (r.prepared && Recovery(r, k))
      ensures calm && Undisputed(old(s), owned) ==> Answers(ChildRuns(old(s.sh)), r, k)
    {
      k := Attempt(owned, r, calm);
    }

    method Attempt(owned: Option<Name>, r: Replies, calm: bool) returns (k: Option<Kind>)
      requires UpdateMachine.Inv(s) && s.install == Asking(Begun)
      modifies this
      ensures UpdateMachine.Inv(s)
      ensures s.install == if k.Some? then Returned(k.value) else Down(Restarting)
      ensures k == Some(Turned) || k == Some(Stuck) || Answers(false, r, k) || (r.prepared && Recovery(r, k))
      ensures calm && Undisputed(old(s), owned) ==> Answers(ChildRuns(old(s.sh)), r, k)
    {
      hide UpdateMachine.Inv, OnlyOurs;
      var frozen := Admit(owned, r.client, calm);
      if !frozen {
        return Some(Turned);
      }
      k := Prepare(owned, r, calm);
      if k.Some? {
        return;
      }
      k := StopEngine(owned, r.exits, calm);
      if k.Some? {
        return;
      }
      if s.install == Down(Quiesced) {
        var installed := InstallPrepared(r.backup, r.installer, calm);
        if installed {
          return None;
        }
      }
      var outcome := RecoverEngine(r, calm);
      k := Some(outcome);
    }
  }
}
