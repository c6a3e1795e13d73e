/** What the update and quit protocol guarantees in every run of UpdateMachine. */
module UpdateSafety {
  import opened Basics
  import opened ProfileLease
  import opened UpdateMachine

  lemma {:induction false} PlayInv(s: App, hs: seq<Happening>)
    requires UpdateMachine.Inv(s)
    ensures UpdateMachine.Inv(Play(s, hs))
    decreases |hs|
  {
    if hs != [] {
      UpdateMachine.StepInv(s, hs[0]);
      PlayInv(Do(s, hs[0]), hs[1..]);
    }
  }

  /** A state some run from a freshly entered process can reach. */
  ghost predicate Reachable(s: App) {
    exists first: App, hs: seq<Happening> :: Initial(first) && s == Play(first, hs)
  }

  lemma ReachableInv(s: App)
    requires Reachable(s)
    ensures UpdateMachine.Inv(s)
  {
    var first: App, hs: seq<Happening> :| Initial(first) && s == Play(first, hs);
    InitialInv(first);
    PlayInv(first, hs);
  }

  // ---- The installer ----

  /** Nothing on the machine can still write what the backup has just copied. */
  ghost predicate NothingWrites(s: App) {
    && s.lease.exclusive == Some(ME) && s.lease.gate == Some(ME)
    && s.lease.shared == {} && LiveWriters(s.lease) == {}
    && s.sh.slot.None? && s.sh.spawned <= s.sh.exited
    && s.sh.saves == Saves(true, 0, 0)
  }

  lemma BackedUpIsSafe(s: App)
    requires UpdateMachine.Inv(s)
    requires s.install == Down(BackedUp)
    ensures NothingWrites(s)
    ensures s.sh.closing && s.sh.quit.NoQuit? && s.phase.Installing? && s.bytes
  {
    assert HoldsExclusive(At(s.lease, ME)) && HoldsGate(At(s.lease, ME));
    assert Held(s.sh);
  }

  /** The installer runs only there, with closing owned, no quit under way and a single install. */
  lemma InstallerRunsAlone(s: App)
    requires Reachable(s)
    requires s.install == Down(BackedUp)
    ensures NothingWrites(s)
    ensures s.sh.closing && s.sh.quit.NoQuit? && s.phase.Installing? && s.bytes
    ensures forall h :: PhaseStep(s, h).None?
  {
    ReachableInv(s);
    BackedUpIsSafe(s);
  }

  lemma BackupStep(s: App, good: bool, spare: Pid)
    requires InstallStep(s, good, spare).Some?
    requires InstallStep(s, good, spare).value.install == Down(BackedUp)
    ensures good && s.install == Down(Quiesced)
  {
    match s.install
    case Asking(_) =>
    case Claiming(_) =>
    case Frozen(_) =>
    case Down(_) =>
    case Rising(_) =>
    case _ =>
  }

  lemma OnlyInstallBacksUp(s: App, h: Happening)
    ensures s.install != Down(BackedUp) && Do(s, h).install == Down(BackedUp) ==>
              && h.Install? && InstallStep(s, h.good, h.spare).Some?
              && InstallStep(s, h.good, h.spare).value == Do(s, h)
  {
  }

  /** It is entered in one way, from a quiescent profile by a backup that returned Ok. */
  lemma InstallerFollowsBackup(s: App, h: Happening)
    requires Reachable(s)
    ensures s.install != Down(BackedUp) && Do(s, h).install == Down(BackedUp) ==>
              && h.Install? && h.good && s.install == Down(Quiesced)
              && LiveWriters(s.lease) == {} && s.sh.slot.None?
  {
    ReachableInv(s);
    OnlyInstallBacksUp(s, h);
    if s.install != Down(BackedUp) && Do(s, h).install == Down(BackedUp) {
      BackupStep(s, h.good, h.spare);
    }
  }

  // ---- Every failing exit ----

  /**
   When install() returns an error, native saves are closed exactly if Quit closed them or some update
   (this one or an earlier one) ended with the engine's state unknown; `closing` is set exactly if Quit set it.
  */
  lemma FailedInstallIsConsistent(s: App)
    requires Reachable(s)
    requires s.install.Returned?
    ensures s.sh.saves.closing <==> QuitShutSaves(s.sh.quit) || s.broken || Bad(s.install.kind)
    ensures s.sh.closing <==> !s.sh.quit.NoQuit?
    ensures Bad(s.install.kind) ==> s.sh.connection.None? && s.sh.error
    ensures s.install.kind.Recovered? ==> s.sh.connection == Some(s.install.kind.pid)
    ensures s.install.kind.Cancelled? ==> s.sh.connection.Some?
    ensures s.install.kind.Cancelled? || s.install.kind.Recovered? ==> !s.broken
    ensures s.sh.uiClosing <==> QuitShutUi(s.sh.quit)
    ensures At(s.lease, ME).Inside?
  {
    ReachableInv(s);
  }

  lemma {:induction false} BrokenStays(s: App, hs: seq<Happening>)
    requires s.broken
    ensures Play(s, hs).broken
    decreases |hs|
  {
    if hs != [] {
      BrokenStepStays(s, hs[0]);
      BrokenStays(Do(s, hs[0]), hs[1..]);
    }
  }

  lemma BrokenStepStays(s: App, h: Happening)
    requires s.broken
    ensures Do(s, h).broken
  {
    if h.Install? && InstallStep(s, h.good, h.spare).Some? {
      InstallLeaves(s, h.good, h.spare);
    } else if !h.Install? && !h.Quit? {
      OthersLeaveQuit(s, h);
    }
  }

  /** After such an ending no save is admitted and no update gets past its first check, whatever happens. */
  lemma BrokenUntilRestart(s: App, hs: seq<Happening>)
    requires Reachable(s) && s.broken
    ensures Dead(Play(s, hs).sh)
    ensures SaveStep(Play(s, hs).sh, Reserve).None? && SaveStep(Play(s, hs).sh, BeginSave).None?
    ensures Early(Play(s, hs).install)
  {
    ReachableInv(s);
    PlayInv(s, hs);
    BrokenStays(s, hs);
  }

  // ---- Quit ----

  /** Quit can begin exactly when no install owns `closing`. */
  lemma QuitUnlessUpdating(s: App)
    requires Reachable(s) && s.sh.quit.NoQuit?
    ensures QuitStep(s.sh).Some? <==> !OwnsClosing(s.install)
  {
    ReachableInv(s);
  }

  lemma {:induction false} QuitNeverTurnsBack(s: App, hs: seq<Happening>)
    requires QuitShutUi(s.sh.quit)
    ensures QuitShutUi(Play(s, hs).sh.quit)
    ensures QuitTook(s.sh.quit) ==> QuitTook(Play(s, hs).sh.quit)
    decreases |hs|
  {
    if hs != [] {
      QuitStepAhead(s, hs[0]);
      QuitNeverTurnsBack(Do(s, hs[0]), hs[1..]);
    }
  }

  lemma QuitStepAhead(s: App, h: Happening)
    requires QuitShutUi(s.sh.quit)
    ensures QuitShutUi(Do(s, h).sh.quit)
    ensures QuitTook(s.sh.quit) ==> QuitTook(Do(s, h).sh.quit)
  {
    if h.Install? && InstallStep(s, h.good, h.spare).Some? {
      InstallLeaves(s, h.good, h.spare);
    } else if !h.Install? && !h.Quit? {
      OthersLeaveQuit(s, h);
    }
  }

  /**
   Once Quit has announced itself, `closing`, the page's closing flag and the closed saves all stay, even
   across a late ready signal; once it has taken the child, the slot is never filled again.
  */
  lemma QuitIsFinal(s: App, hs: seq<Happening>)
    requires Reachable(s) && QuitShutUi(s.sh.quit)
    ensures Play(s, hs).sh.closing && Play(s, hs).sh.uiClosing && Play(s, hs).sh.saves.closing
    ensures QuitTook(s.sh.quit) ==> Play(s, hs).sh.slot.None?
  {
    ReachableInv(s);
    PlayInv(s, hs);
    QuitNeverTurnsBack(s, hs);
  }

  /** With saves closed, the count Quit waits for can only fall, and some active save can always end it. */
  lemma DrainOnlyFalls(s: App, h: Happening)
    requires Reachable(s) && s.sh.quit.UiShut?
    ensures Do(s, h).sh.saves.active <= s.sh.saves.active
    ensures s.sh.saves.active != 0 ==> SaveStep(s.sh, EndSave).Some?
    ensures s.sh.saves.active == 0 ==> QuitStep(s.sh).Some?
  {
    ReachableInv(s);
    assert s.sh.saves.closing;
    if h.Install? && InstallStep(s, h.good, h.spare).Some? {
      InstallLeaves(s, h.good, h.spare);
    } else if !h.Install? && !h.Quit? {
      OthersLeaveQuit(s, h);
    }
  }
}
