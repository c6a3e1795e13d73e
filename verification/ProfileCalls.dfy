/**
 The calls of profile.rs in their source order. Every other process may run between any two system
 calls, so each method lets an arbitrary schedule of the others pass before its next step. In a `calm`
 call nobody else runs and every registry entry can be read; such a call has one exact outcome.
 */
module ProfileCalls {
  import opened Basics
  import opened ProfileLease

  predicate Scanning(pc: Pc) {
    pc.EnterScan? || pc.ExclScan? || pc.QuietScan?
  }

  /** What a scan of the entries `read` leaves: the stale ones among them are gone, all else is as it was. */
  predicate Pruned(before: map<Name, Entry>, pc: Pc, read: set<Name>, after: map<Name, Entry>) {
    && after.Keys <= before.Keys
    && (forall n :: n in after ==> after[n] == before[n])
    && (forall n :: n in before ==>
          (n !in after <==> n in read && before[n] == Lock(None) && !(pc.ExclScan? && pc.owned == Some(n))))
  }

  /** Nothing stands in the way of an upgrade of `p` whose own engine writes as `owned`. */
  predicate Upgradable(s: Lease, p: Pid, owned: Option<Name>) {
    s.gate.None? && s.shared == {p} && Clear(s, owned)
  }

  lemma UnlockedHoldsNoLease(s: Lease, p: Pid)
    requires Inv(s) && At(s, p).ExclUnlocked?
    ensures s.gate == Some(p) && s.exclusive.None? && p !in s.shared
  {
    ExclusiveOwnsTheGate(s);
    assert s.gate == Some(p) <==> HoldsGate(At(s, p));
  }

  class SharedProfile {
    var lease: Lease

    constructor ()
      ensures lease == EMPTY && Inv(lease)
    {
      lease := EMPTY;
      InitInv();
    }

    /** Anything the other processes do before `p` runs again. */
    method Others(p: Pid, calm: bool)
      requires Inv(lease)
      modifies this
      ensures Inv(lease)
      ensures At(lease, p) == old(At(lease, p))
      ensures HoldsExclusive(At(lease, p)) ==> LiveWriters(lease) <= old(LiveWriters(lease))
      ensures calm ==> lease == old(lease)
    {
      var script: seq<Move> := *;
      var i := 0;
      while i < |script|
        invariant Inv(lease)
        invariant At(lease, p) == old(At(lease, p))
        invariant HoldsExclusive(At(lease, p)) ==> LiveWriters(lease) <= old(LiveWriters(lease))
        invariant calm ==> lease == old(lease)
      {
        if !calm && script[i].pid != p {
          OthersStay(lease, script[i], p);
          StepInv(lease, script[i]);
          if HoldsExclusive(At(lease, p)) {
            HeldStep(lease, script[i], p);
          }
          lease := Apply(lease, script[i]);
        }
        i := i + 1;
      }
    }

    method Do(p: Pid, e: Event)
      requires Inv(lease)
      modifies this
      ensures Inv(lease) && lease == Apply(old(lease), Move(p, e))
    {
      StepInv(lease, Move(p, e));
      lease := Apply(lease, Move(p, e));
    }

    /** The loop over the registry. A false result is the error return: the rest is left unread. */
    method Writers(p: Pid, calm: bool) returns (ok: bool)
      requires Inv(lease) && Scanning(At(lease, p))
      modifies this
      ensures Inv(lease)
      ensures ok ==> At(lease, p) == old(At(lease, p)).(todo := {})
      ensures !ok ==> exists todo :: At(lease, p) == old(At(lease, p)).(todo := todo)
      ensures calm ==> (ok <==> forall n :: n in old(At(lease, p)).todo ==> Passable(old(lease), old(At(lease, p)), n))
      ensures calm ==> lease == old(lease).(writers := lease.writers, pcs := old(lease.pcs)[p := At(lease, p)])
      ensures calm && ok ==> Pruned(old(lease.writers), old(At(lease, p)), old(At(lease, p)).todo, lease.writers)
    {
      ghost var pc := At(lease, p);
      var todo := At(lease, p).todo;
      while todo != {}
        invariant Inv(lease)
        invariant At(lease, p) == pc.(todo := todo) && todo <= pc.todo
        invariant calm ==> forall n :: n in pc.todo - todo ==> Passable(old(lease), pc, n)
        invariant calm ==> lease == old(lease).(writers := lease.writers, pcs := old(lease.pcs)[p := At(lease, p)])
        invariant calm ==> Pruned(old(lease.writers), pc, pc.todo - todo, lease.writers)
        decreases todo
      {
        var n :| n in todo;
        Others(p, calm);
        ScanPassesIff(lease, p, n);
        var unread: bool := *;
        if (unread && !calm) || Inspect(lease, At(lease, p), n).None? {
          return false;
        }
        Do(p, ScanOne(n));
        todo := todo - {n};
      }
      return true;
    }

    method Enter(p: Pid, calm: bool) returns (r: Outcome)
      requires Inv(lease) && At(lease, p).Outside?
      modifies this
      ensures Inv(lease)
      ensures r.Done? ==> At(lease, p).Inside?
      ensures r.Refused? ==> At(lease, p).Outside?
      ensures calm ==> (r.Done? <==> old(lease.gate).None? && forall n :: n in old(lease.writers) ==> old(lease.writers)[n].Lock?)
      ensures calm && r.Done? ==> lease.shared == old(lease.shared) + {p} && lease.gate.None?
                                  && LiveWriters(lease) == old(LiveWriters(lease))
    {
      Others(p, calm);
      Do(p, AcquireGate);
      if At(lease, p).Outside? {
        return Refused;
      }
      Others(p, calm);
      ExclusiveOwnsTheGate(lease);
      assert lease.gate == Some(p);
      Do(p, TryShared(true));
      // Behind the gate the shared lock cannot be refused (OnlyTheGateRefuses), so that exit is dead.
      assert At(lease, p).EnterScan?;
      r := Admit(p, calm);
    }

    /** The rest of enter(), behind the gate and with the shared lease taken. */
    method Admit(p: Pid, calm: bool) returns (r: Outcome)
      requires Inv(lease) && At(lease, p).EnterScan?
      modifies this
      ensures Inv(lease)
      ensures r.Done? ==> At(lease, p).Inside?
      ensures r.Refused? ==> At(lease, p).Outside?
      ensures calm ==> (r.Done? <==> forall n :: n in old(At(lease, p)).todo ==>
                                       n in old(lease.writers) && old(lease.writers)[n].Lock?)
      ensures calm && r.Done? ==> lease.shared == old(lease.shared) && lease.gate.None?
                                  && LiveWriters(lease) == old(LiveWriters(lease))
    {
      var ok := Writers(p, calm);
      Others(p, calm);
      if ok {
        Do(p, ScanDone);
      } else {
        Do(p, Abandon);
      }
      Others(p, calm);
      Do(p, ReleaseGate);
      r := if ok then Done else Refused;
    }

    /** Both ways back to the ordinary lease: the shared lock first, the gate after it. */
    method Restore(p: Pid, calm: bool)
      requires Inv(lease) && At(lease, p).Relock?
      modifies this
      ensures Inv(lease) && At(lease, p).Inside?
      ensures calm ==> lease.gate.None? && lease.writers == old(lease.writers) && lease.shared == old(lease.shared) + {p}
    {
      Others(p, calm);
      assert lease.gate == Some(p);
      ExclusiveOwnsTheGate(lease);
      Do(p, LockShared);
      Others(p, calm);
      Do(p, ReleaseGate);
    }

    /** exclusive() as far as the exclusive lock: the gate, the unlock, the attempt. */
    method Take(p: Pid, owned: Option<Name>, calm: bool) returns (taken: bool)
      requires Inv(lease) && At(lease, p).Inside?
      modifies this
      ensures Inv(lease)
      ensures if taken then At(lease, p).ExclScan? && At(lease, p).owned == owned else At(lease, p).Inside?
      ensures calm ==> (taken <==> old(lease.gate).None? && old(lease.shared) == {p})
      ensures calm && taken ==> lease.writers == old(lease.writers) && At(lease, p).todo == lease.writers.Keys
    {
      assert p in lease.shared;
      hide Inv;
      Others(p, calm);
      Do(p, AcquireGate);
      if At(lease, p).Inside? {
        return false;
      }
      Others(p, calm);
      Do(p, Unlock);
      Others(p, calm);
      UnlockedHoldsNoLease(lease, p);
      Do(p, TryExclusive(owned));
      if At(lease, p).Relock? {
        Restore(p, calm);
        return false;
      }
      return true;
    }

    method Exclusive(p: Pid, owned: Option<Name>, calm: bool) returns (r: Outcome)
      requires Inv(lease) && At(lease, p).Inside?
      modifies this
      ensures Inv(lease)
      ensures r.Done? ==> At(lease, p).Upgrade? && forall n | n in LiveWriters(lease) :: owned == Some(n)
      ensures r.Refused? ==> At(lease, p).Inside?
      ensures calm ==> (r.Done? <==> Upgradable(old(lease), p, owned))
      ensures calm && r.Done? ==>
                forall n :: n in lease.writers <==> Live(old(lease), n) || (owned == Some(n) && n in old(lease.writers))
    {
      hide Inv;
      var taken := Take(p, owned, calm);
      if !taken {
        return Refused;
      }
      r := Claim(p, calm);
    }

    /** The rest of exclusive(), with the exclusive lock taken. */
    method Claim(p: Pid, calm: bool) returns (r: Outcome)
      requires Inv(lease) && At(lease, p).ExclScan?
      modifies this
      ensures Inv(lease)
      ensures r.Done? ==> At(lease, p).Upgrade? && forall n | n in LiveWriters(lease) :: old(At(lease, p)).owned == Some(n)
      ensures r.Refused? ==> At(lease, p).Inside?
      ensures calm ==> (r.Done? <==> forall n :: n in old(At(lease, p)).todo ==> Passable(old(lease), old(At(lease, p)), n))
      ensures calm && r.Done? ==> Pruned(old(lease.writers), old(At(lease, p)), old(At(lease, p)).todo, lease.writers)
    {
      var ok := Writers(p, calm);
      if !ok {
        Do(p, Abandon);
        Restore(p, calm);
        return Refused;
      }
      ExclusiveScanned(lease, p);
      Do(p, ScanDone);
      return Done;
    }

    method Quiescent(p: Pid, calm: bool) returns (r: Outcome)
      requires Inv(lease) && At(lease, p).Upgrade?
      modifies this
      ensures Inv(lease) && At(lease, p).Upgrade?
      ensures r.Done? ==> LiveWriters(lease) == {}
      ensures calm ==> (r.Done? <==> Clear(old(lease), None))
      ensures calm && r.Done? ==> lease.writers == map[]
    {
      Others(p, calm);
      Do(p, BeginQuiescent);
      var ok := Writers(p, calm);
      if !ok {
        Do(p, Abandon);
        return Refused;
      }
      QuietUntilDropped(lease, p, []);
      Do(p, ScanDone);
      return Done;
    }

    method DropUpgrade(p: Pid, calm: bool)
      requires Inv(lease) && At(lease, p).Upgrade?
      modifies this
      ensures Inv(lease) && At(lease, p).Inside?
      ensures calm ==> lease.gate.None? && lease.exclusive.None? && lease.shared == {p}
    {
      Others(p, calm);
      Do(p, Event.DropUpgrade);
      Restore(p, calm);
    }
  }
}
