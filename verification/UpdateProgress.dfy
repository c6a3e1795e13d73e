/** What the threads of UpdateMachine achieve where nothing stands in their way. */
module UpdateProgress {
  import opened Basics
  import opened ProfileLease
  import opened UpdateMachine
  import opened UpdateSafety

  /** The same step `n` times over. */
  function Again(s: App, h: Happening, n: nat): App
    decreases n
  {
    if n == 0 then s else Again(Do(s, h), h, n - 1)
  }

  lemma Once(s: App, h: Happening, n: nat)
    requires n > 0
    ensures Again(s, h, n) == Again(Do(s, h), h, n - 1)
  {
  }

  lemma Three(s: App, h: Happening)
    ensures Again(s, h, 2) == Do(Do(s, h), h)
    ensures Again(s, h, 3) == Do(Do(Do(s, h), h), h)
  {
    var a, b, c := Do(s, h), Do(Do(s, h), h), Do(Do(Do(s, h), h), h);
    hide Do;
    Once(s, h, 3);
    Once(a, h, 2);
    Once(b, h, 1);
    Once(s, h, 2);
    Once(a, h, 1);
  }

  lemma Five(s: App, h: Happening)
    ensures Again(s, h, 5) == Do(Do(Do(Do(Do(s, h), h), h), h), h)
  {
    hide Do;
    Once(s, h, 5);
    Once(Do(s, h), h, 4);
    Three(Do(Do(s, h), h), h);
  }

  lemma Six(s: App, h: Happening)
    ensures Again(s, h, 6) == Do(Do(Do(Do(Do(Do(s, h), h), h), h), h), h)
  {
    hide Do;
    Once(s, h, 6);
    Five(Do(s, h), h);
  }

  // ---- Recovery ----

  /** At the end of a failed update nothing is in the way of a new engine: no child, no closed process. */
  lemma RespawnIsFree(s: App)
    requires Reachable(s) && s.install == Down(Respawn)
    ensures !s.sh.closed && s.sh.closing && s.sh.slot.None?
  {
    ReachableInv(s);
  }

  /** A spawn that succeeds gives the new child to the process; `closing`, still owned, does not stop it. */
  lemma RecoverySpawns(s: App, spare: Pid)
    requires Reachable(s) && s.install == Down(Respawn)
    requires spare != ME && spare !in s.sh.spawned && spare !in s.sh.exited
    ensures var t := Do(s, Happening.Install(true, spare));
            && t.install == Rising(AwaitReady(spare))
            && t.sh == s.sh.(slot := Some(Child(spare, false)), spawned := s.sh.spawned + {spare})
    ensures Do(s, Happening.Install(false, spare)) == s.(install := Rising(Settle(NotRecovered)))
  {
    RespawnIsFree(s);
  }

  lemma RisingEnds(s: App, spare: Pid)
    requires s.install == Rising(AwaitReady(spare)) && s.sh.slot.Some?
    ensures var t := Again(s, Happening.Install(true, spare), 6);
            && t.install == Returned(Recovered(spare))
            && t.sh == s.sh.(slot := Some(s.sh.slot.value.(ready := true)), connection := Some(spare), error := false,
                             uiClosing := false, saves := s.sh.saves.(closing := false), closing := false)
  {
    var h := Happening.Install(true, spare);
    var k := Recovered(spare);
    Announced(s, spare);
    var c := s.(sh := s.sh.(slot := Some(s.sh.slot.value.(ready := true)), connection := Some(spare), error := false),
                install := Rising(Settle(k)));
    Settled(c, k, true, spare);
    hide Do;
    Six(s, h);
  }

  lemma Rises(s: App, good: bool, spare: Pid)
    requires s.install.Rising?
    ensures Do(s, Happening.Install(good, spare)) == RisingStep(s, good)
  {
  }

  lemma Announced(s: App, spare: Pid)
    requires s.install == Rising(AwaitReady(spare)) && s.sh.slot.Some?
    ensures var h := Happening.Install(true, spare);
            Do(Do(Do(s, h), h), h)
            == s.(sh := s.sh.(slot := Some(s.sh.slot.value.(ready := true)), connection := Some(spare), error := false),
                  install := Rising(Settle(Recovered(spare))))
  {
    hide Do;
    var a := s.(install := Rising(MarkReady(spare)));
    var b := s.(sh := s.sh.(slot := Some(s.sh.slot.value.(ready := true))), install := Rising(Connect(spare)));
    Rises(s, true, spare);
    Rises(a, true, spare);
    Rises(b, true, spare);
  }

  /** The last three statements of recover(). */
  lemma Settled(s: App, k: Kind, good: bool, spare: Pid)
    requires s.install == Rising(Settle(k))
    ensures var h := Happening.Install(good, spare);
            Do(Do(Do(s, h), h), h)
            == s.(sh := s.sh.(uiClosing := false, error := s.sh.error || k.NotRecovered?, closing := false,
                              saves := s.sh.saves.(closing := s.sh.saves.closing && !k.Recovered?)),
                  install := Returned(k))
  {
    var h := Happening.Install(good, spare);
    var a := s.(sh := s.sh.(uiClosing := false, error := s.sh.error || k.NotRecovered?), install := Rising(ReopenAfter(k)));
    var b := a.(sh := a.sh.(saves := s.sh.saves.(closing := s.sh.saves.closing && !k.Recovered?)),
                install := Claiming(ReleaseAfter(k)));
    Releases(b, k, good, spare);
    hide Do;
    Rises(s, good, spare);
    Rises(a, good, spare);
  }

  lemma Releases(s: App, k: Kind, good: bool, spare: Pid)
    requires s.install == Claiming(ReleaseAfter(k))
    ensures Do(s, Happening.Install(good, spare)) == s.(sh := s.sh.(closing := false), install := Returned(k))
  {
  }

  /** Left alone, a new engine that becomes ready is connected, and saving and closing are given back. */
  lemma RecoveryReconnects(s: App, spare: Pid)
    requires Reachable(s) && s.install == Down(Respawn)
    requires spare != ME && spare !in s.sh.spawned && spare !in s.sh.exited
    ensures var t := Again(s, Happening.Install(true, spare), 7);
            && t.install == Returned(Recovered(spare))
            && t.sh.slot == Some(Child(spare, true)) && t.sh.connection == Some(spare)
            && !t.sh.error && !t.sh.uiClosing && !t.sh.saves.closing && !t.sh.closing && !t.sh.closed
  {
    RespawnIsFree(s);
    RecoverySpawns(s, spare);
    Once(s, Happening.Install(true, spare), 7);
    RisingEnds(Do(s, Happening.Install(true, spare)), spare);
  }

  /**
   An engine that started and did not announce itself is given up: its handle goes if it has exited, the
   error shows, saves stay closed, and Quit is possible again.
  */
  lemma RecoveryFails(s: App, spare: Pid)
    requires s.install == Rising(AwaitReady(spare)) && s.sh.slot == Some(Child(spare, false))
    ensures var t := Again(s, Happening.Install(false, spare), 5);
            && t.install == Returned(NotRecovered)
            && t.sh == s.sh.(slot := if spare in s.sh.exited then None else s.sh.slot, error := true, uiClosing := false,
                             closing := false)
  {
    var h := Happening.Install(false, spare);
    var b := s.(sh := s.sh.(slot := if spare in s.sh.exited then None else s.sh.slot), install := Rising(Settle(NotRecovered)));
    Settled(b, NotRecovered, false, spare);
    Reaped(s, spare);
    hide Do;
    Five(s, h);
  }

  lemma Reaped(s: App, spare: Pid)
    requires s.install == Rising(AwaitReady(spare)) && s.sh.slot == Some(Child(spare, false))
    ensures var h := Happening.Install(false, spare);
            Do(Do(s, h), h)
            == s.(sh := s.sh.(slot := if spare in s.sh.exited then None else s.sh.slot), install := Rising(Settle(NotRecovered)))
  {
    hide Do;
    Rises(s, false, spare);
    Rises(s.(install := Rising(Reap)), false, spare);
  }

  // ---- Start, quit, health ----

  lemma Starts(s: App, good: bool, spare: Pid) returns (t: App)
    requires StartStep(s.sh, good, spare).Some?
    ensures t == Do(s, Start(good, spare)) == s.(sh := StartStep(s.sh, good, spare).value)
  {
    t := Do(s, Start(good, spare));
  }

  /** The first start, left alone: the engine is spawned, marked ready and connected. */
  lemma FirstStart(s: App, spare: Pid)
    requires Initial(s) && spare != ME
    ensures var t := Again(s, Start(true, spare), 5);
            t.sh == s.sh.(slot := Some(Child(spare, true)), spawned := {spare}, connection := Some(spare), start := Started)
  {
    StartSteps(s.sh, spare);
    hide Do, StartStep, Initial;
    var a := Starts(s, true, spare);
    var b := Starts(a, true, spare);
    var c := Starts(b, true, spare);
    var d := Starts(c, true, spare);
    var _ := Starts(d, true, spare);
    Five(s, Start(true, spare));
  }

  lemma StartSteps(h: Shared, spare: Pid)
    requires h.start.NotStarted? && !h.closing && !h.closed && h.slot.None? && !h.error && !Used(h, spare)
    ensures var a := h.(start := Spawn);
            var b := a.(slot := Some(Child(spare, false)), spawned := h.spawned + {spare}, start := Wait(spare));
            var c := b.(start := SetReady(spare));
            var d := c.(slot := Some(Child(spare, true)), start := Publish(spare));
            && StartStep(h, true, spare) == Some(a) && StartStep(a, true, spare) == Some(b)
            && StartStep(b, true, spare) == Some(c) && StartStep(c, true, spare) == Some(d)
            && StartStep(d, true, spare) == Some(d.(connection := Some(spare), start := Started))
  {
  }

  /** A first start that cannot spawn, or whose engine does not announce itself, reports an error and connects nothing. */
  lemma FailedStart(s: App, spare: Pid)
    requires s.sh.start.Wait?
    ensures var t := Again(s, Start(false, spare), 3);
            t.sh == s.sh.(slot := if s.sh.slot.Some? && s.sh.slot.value.pid !in s.sh.exited then s.sh.slot else None,
                          error := true, start := Started)
    ensures var u := Again(s.(sh := s.sh.(start := Spawn)), Start(false, spare), 2);
            u.sh == s.sh.(error := true, start := Started)
  {
    var x := s.(sh := s.sh.(start := Spawn));
    FailingSteps(s.sh, spare);
    hide Do, StartStep;
    var a := Starts(s, false, spare);
    var b := Starts(a, false, spare);
    var _ := Starts(b, false, spare);
    Three(s, Start(false, spare));
    var y := Starts(x, false, spare);
    var _ := Starts(y, false, spare);
    Three(x, Start(false, spare));
  }

  lemma FailingSteps(h: Shared, spare: Pid)
    requires h.start.Wait?
    ensures var kept := if h.slot.Some? && h.slot.value.pid !in h.exited then h.slot else None;
            var a := h.(start := Shut);
            var b := a.(slot := kept, start := Report);
            && StartStep(h, false, spare) == Some(a) && StartStep(a, false, spare) == Some(b)
            && StartStep(b, false, spare) == Some(b.(error := true, start := Started))
    ensures StartStep(h.(start := Spawn), false, spare) == Some(h.(start := Report))
    ensures StartStep(h.(start := Report), false, spare) == Some(h.(error := true, start := Started))
  {
  }

  /** Quit, unless an update owns `closing`, runs to its end once no save is active. */
  lemma QuitCompletes(s: App)
    requires Reachable(s) && s.sh.quit.NoQuit? && !OwnsClosing(s.install) && s.sh.saves.active == 0
    ensures var t := Again(s, Quit, 6);
            t.sh == s.sh.(closing := true, closed := true, slot := None, uiClosing := true,
                          saves := s.sh.saves.(closing := true), quit := Closed)
  {
    QuitUnlessUpdating(s);
    hide Do, Reachable, QuitStep;
    QuitSteps(s.sh);
    var a := Enters(s);
    var b := Enters(a);
    var c := Enters(b);
    var d := Enters(c);
    var e := Enters(d);
    var _ := Enters(e);
    Six(s, Quit);
  }

  lemma Enters(s: App) returns (t: App)
    requires QuitStep(s.sh).Some?
    ensures t == Do(s, Quit) == s.(sh := QuitStep(s.sh).value)
  {
    t := Do(s, Quit);
  }

  lemma QuitSteps(h: Shared)
    requires h.quit.NoQuit? && !h.closing && h.saves.active == 0
    ensures var a := h.(closing := true, quit := Begin);
            var b := a.(saves := h.saves.(closing := true), quit := SavesShut);
            var c := b.(uiClosing := true, quit := UiShut);
            var d := c.(quit := Drained);
            var e := d.(slot := None, quit := Took);
            && QuitStep(h) == Some(a) && QuitStep(a) == Some(b) && QuitStep(b) == Some(c)
            && QuitStep(c) == Some(d) && QuitStep(d) == Some(e) && QuitStep(e) == Some(e.(closed := true, quit := Closed))
  {
  }

  /** One round of the health thread reports an error exactly when a ready engine has exited. */
  lemma HealthRound(s: App)
    requires s.sh.monitor.Resting? && !s.sh.closing && !s.sh.closed
    ensures var stopped := exists p :: s.sh.slot == Some(Child(p, true)) && p in s.sh.exited;
            var t := Again(s, Monitor, if stopped then 3 else 2);
            t.sh == if stopped then s.sh.(error := true) else s.sh
  {
    var a := Do(s, Monitor);
    assert a.sh == s.sh.(monitor := Looking);
    var b := Do(a, Monitor);
    if s.sh.slot.Some? {
      assert s.sh.slot == Some(Child(s.sh.slot.value.pid, s.sh.slot.value.ready));
    }
    Three(s, Monitor);
  }

  // ---- Saves and the download ----

  /** A save is admitted unless an update holds the saves, Quit has shut them, or an update left them shut. */
  lemma SavesAdmittedIff(s: App)
    requires Reachable(s)
    ensures (SaveStep(s.sh, Reserve).Some? && SaveStep(s.sh, BeginSave).Some?)
              <==> !Holds(s.install) && !QuitShutSaves(s.sh.quit) && !Gone(s)
    ensures SaveStep(s.sh, Reserve).Some? ==> SaveStep(s.sh, Reserve).value.saves.pending == s.sh.saves.pending + 1
    ensures SaveStep(s.sh, BeginSave).Some? ==> SaveStep(s.sh, BeginSave).value.saves.active == s.sh.saves.active + 1
  {
    ReachableInv(s);
  }

  /** From any phase that is not busy, a found and downloaded update can be installed. */
  lemma DownloadLeadsToInstall(s: App)
    requires !s.phase.Checking? && !s.phase.Downloading? && !s.phase.Installing?
    ensures var hs := [BeginCheck, CheckDone(true, true, true), BeginDownload, DownloadDone(true), RequestInstall];
            Play(s, hs) == s.(phase := Installing, update := true, bytes := true, install := Asking(Begun))
  {
    hide Do, PhaseStep;
    Checks(s);
    Downloads(s.(phase := Available, update := true, bytes := false));
    var a := s.(phase := Checking, update := false, bytes := false);
    var b := s.(phase := Available, update := true, bytes := false);
    var c := s.(phase := Downloading, update := true, bytes := false);
    var d := s.(phase := Phase.Ready, update := true, bytes := true);
    assert Do(s, BeginCheck) == a && Do(a, CheckDone(true, true, true)) == b && Do(b, BeginDownload) == c;
    assert Do(c, DownloadDone(true)) == d;
    PlayFive(s, [BeginCheck, CheckDone(true, true, true), BeginDownload, DownloadDone(true), RequestInstall]);
  }

  lemma Checks(s: App)
    requires !Busy(s.phase)
    ensures var a := s.(phase := Checking, update := false, bytes := false);
            Do(s, BeginCheck) == a && Do(a, CheckDone(true, true, true)) == a.(phase := Available, update := true)
  {
    PhaseDo(s, BeginCheck);
    PhaseDo(s.(phase := Checking, update := false, bytes := false), CheckDone(true, true, true));
  }

  lemma Downloads(s: App)
    requires s.phase.Available? && s.update
    ensures var c := s.(phase := Downloading);
            var d := s.(phase := Phase.Ready, bytes := true);
            && Do(s, BeginDownload) == c && Do(c, DownloadDone(true)) == d
            && Do(d, RequestInstall) == d.(phase := Installing, install := Asking(Begun))
  {
    hide Do;
    PhaseDo(s, BeginDownload);
    PhaseDo(s.(phase := Downloading), DownloadDone(true));
    PhaseDo(s.(phase := Phase.Ready, bytes := true), RequestInstall);
  }

  lemma PhaseDo(s: App, h: Happening)
    requires h.BeginCheck? || h.CheckDone? || h.BeginDownload? || h.DownloadDone? || h.RequestInstall?
    ensures Do(s, h) == if PhaseStep(s, h).Some? then PhaseStep(s, h).value else s
  {
  }

  /** A check that fails or finds nothing can be repeated, and a failed download keeps the update it can be tried with again. */
  lemma FailuresCanBeRetried(s: App, found: bool, update: bool)
    requires s.phase.Checking?
    ensures var failed, none := Do(s, CheckDone(found, update, false)), Do(s, CheckDone(false, update, true));
            && failed.phase.Failed? && none.phase.Current?
            && Do(failed, BeginCheck).phase.Checking? && Do(none, BeginCheck).phase.Checking?
    ensures var loading := s.(phase := Downloading, update := true);
            var failed := Do(loading, DownloadDone(false));
            failed == loading.(phase := Available) && Do(failed, BeginDownload) == loading
  {
    hide Do;
    PhaseDo(s, CheckDone(found, update, false));
    PhaseDo(s, CheckDone(false, update, true));
    PhaseDo(s.(phase := Failed), BeginCheck);
    PhaseDo(s.(phase := Current, update := update), BeginCheck);
    PhaseDo(s.(phase := Downloading, update := true), DownloadDone(false));
    PhaseDo(s.(phase := Available, update := true), BeginDownload);
  }

  lemma PlayFive(s: App, hs: seq<Happening>)
    requires |hs| == 5
    ensures Play(s, hs) == Do(Do(Do(Do(Do(s, hs[0]), hs[1]), hs[2]), hs[3]), hs[4])
  {
    hide Do;
    assert hs[1..][1..] == hs[2..] && hs[2..][1..] == hs[3..] && hs[3..][1..] == hs[4..] && hs[4..][1..] == [];
    var a := Do(s, hs[0]);
    PlayOne(s, hs);
    var b := Do(a, hs[1]);
    PlayOne(a, hs[1..]);
    var c := Do(b, hs[2]);
    PlayOne(b, hs[2..]);
    var d := Do(c, hs[3]);
    PlayOne(c, hs[3..]);
    PlayOne(d, hs[4..]);
    assert Play(Do(d, hs[4]), []) == Do(d, hs[4]);
  }

  lemma PlayOne(s: App, hs: seq<Happening>)
    requires hs != []
    ensures Play(s, hs) == Play(Do(s, hs[0]), hs[1..])
  {
  }
}
