/**
 One desktop process while it can be asked to update itself or to quit: the threads of main.rs and
 updates.rs, the atomics and mutex-protected records they share, the native saves, the engine child,
 and the profile lease of ProfileLease with every other process of the machine running beside it.

 One step is one shared access of one thread. Replies of the engine, of the backup and of the
 installer are arbitrary.
 */
module UpdateMachine {
  import opened Basics
  import opened ProfileLease

  /** This process; it has entered the profile before its threads exist. */
  const ME: Pid := 0

  datatype Child = Child(pid: Pid, ready: bool)

  datatype Saves = Saves(closing: bool, active: nat, pending: nat)

  datatype StartPc =
    | NotStarted | Spawn | Wait(pid: Pid) | SetReady(pid: Pid) | Publish(pid: Pid) | Shut | Report | Started

  datatype QuitPc = NoQuit | Begin | SavesShut | UiShut | Drained | Took | Closed

  datatype MonitorPc = Resting | Looking | Reporting

  /** What every thread may touch, and where the threads other than install() are. */
  datatype Shared = Shared(
    closing: bool,
    closed: bool,
    slot: Option<Child>,
    spawned: set<Pid>,
    exited: set<Pid>,
    uiClosing: bool,
    connection: Option<Pid>,
    error: bool,
    saves: Saves,
    start: StartPc,
    quit: QuitPc,
    monitor: MonitorPc)

  /** Why install() returned an error. */
  datatype Kind =
    | Turned              // refused before anything was prepared
    | Cancelled           // the engine acknowledged the cancellation
    | Uncertain           // it did not
    | Stuck               // the engine was not seen to exit
    | Recovered(pid: Pid) // this replacement engine became ready
    | NotRecovered

  /** install() before it owns `closing`, or letting its lease go after giving `closing` back. */
  datatype AskPc = Begun | HasConnection | Leasing | Leased | Letting(kind: Kind)

  /** `closing` is owned; the saves are not held. */
  datatype ClaimPc = Claimed | Declined | Reopened | ReleaseAfter(kind: Kind)

  /** Saves held closed, the old engine still owned. */
  datatype FrozenPc = SavesClosed | Marked | Cancelling | CancelAcked | Reopening | Prepared | Unavailable(kind: Kind)

  /** The old engine was seen to exit and its handle was taken. The installer runs in BackedUp. */
  datatype DownPc = Stopped | Quieting | Quiesced | BackedUp | Restarting | Dropping | Recover | Respawn

  /** A replacement engine was spawned, or its start failed. */
  datatype RisingPc =
    | AwaitReady(pid: Pid) | MarkReady(pid: Pid) | Connect(pid: Pid) | Reap | Settle(kind: Kind) | ReopenAfter(kind: Kind)

  datatype InstallPc =
    | Idle
    | Asking(ask: AskPc)
    | Claiming(claim: ClaimPc)
    | Frozen(frozen: FrozenPc)
    | Releasing(kind: Kind)
    | Down(down: DownPc)
    | Rising(rising: RisingPc)
    | Returned(kind: Kind)

  datatype Phase = NoUpdate | Checking | Current | Available | Downloading | Ready | Installing | Failed

  datatype App = App(
    lease: Lease,
    install: InstallPc,
    broken: bool,         // history: some call ended with the engine's state unknown
    phase: Phase,
    update: bool,
    bytes: bool,
    sh: Shared)

  datatype Happening =
    | Elsewhere(move: Move)                 // a lease call of another process
    | EngineDies(pid: Pid)
    | Mine(event: Event)                    // a lease call of the install thread
    | Install(good: bool, spare: Pid)       // any other step of it
    | Start(good: bool, spare: Pid)
    | Quit
    | Monitor
    | Reserve | Release | BeginSave | EndSave
    | BeginCheck | CheckDone(found: bool, update: bool, ok: bool)
    | BeginDownload | DownloadDone(ok: bool)
    | RequestInstall

  // ---- The engine child ----

  predicate ChildRuns(h: Shared) {
    h.slot.Some? && h.slot.value.pid !in h.exited
  }

  /** A process identity the system will not give to a new child. */
  predicate Used(h: Shared, spare: Pid) {
    spare == ME || spare in h.spawned || spare in h.exited
  }

  /** The spawning section of start_backend, one critical section under the child mutex. */
  function TrySpawn(h: Shared, recovery: bool, good: bool, spare: Pid): Option<Shared> {
    if h.closed || (!recovery && h.closing) || ChildRuns(h) || !good || Used(h, spare) then None
    else Some(h.(slot := Some(Child(spare, false)), spawned := h.spawned + {spare}))
  }

  function MarkChild(h: Shared): Shared {
    if h.slot.Some? then h.(slot := Some(h.slot.value.(ready := true))) else h
  }

  function ReapChild(h: Shared): Shared {
    if ChildRuns(h) then h else h.(slot := None)
  }

  function Connected(h: Shared, p: Pid): Shared {
    h.(connection := Some(p), error := false)
  }

  // ---- The other threads ----

  function StartStep(h: Shared, good: bool, spare: Pid): Option<Shared> {
    match h.start
    case NotStarted => Some(h.(start := if h.closing then Started else Spawn))
    case Spawn =>
      var t := TrySpawn(h, false, good, spare);
      Some(if t.Some? then t.value.(start := Wait(spare)) else h.(start := Report))
    case Wait(p) => Some(h.(start := if good then SetReady(p) else Shut))
    case SetReady(p) => Some(MarkChild(h).(start := Publish(p)))
    case Publish(p) => Some(Connected(h, p).(start := Started))
    case Shut => Some(ReapChild(h).(start := Report))
    case Report => Some(h.(error := true, start := Started))
    case Started => None
  }

  function QuitStep(h: Shared): Option<Shared> {
    match h.quit
    case NoQuit => if h.closing then None else Some(h.(closing := true, quit := Begin))
    case Begin => Some(h.(saves := h.saves.(closing := true), quit := SavesShut))
    case SavesShut => Some(h.(uiClosing := true, quit := UiShut))
    case UiShut => if h.saves.active != 0 then None else Some(h.(quit := Drained))
    case Drained => Some(h.(slot := None, quit := Took))
    case Took => Some(h.(closed := true, quit := Closed))
    case Closed => None
  }

  /** The health thread. Its report is made after the child mutex has been released. */
  function MonitorStep(h: Shared): Option<Shared> {
    match h.monitor
    case Resting => if h.closed || h.closing then None else Some(h.(monitor := Looking))
    case Looking =>
      var stopped := h.slot.Some? && h.slot.value.ready && h.slot.value.pid in h.exited;
      Some(h.(monitor := if stopped then Reporting else Resting))
    case Reporting => Some(h.(error := true, monitor := Resting))
  }

  function SaveStep(h: Shared, e: Happening): Option<Shared> {
    match e
    case Reserve => if h.saves.closing then None else Some(h.(saves := h.saves.(pending := h.saves.pending + 1)))
    case BeginSave => if h.saves.closing then None else Some(h.(saves := h.saves.(active := h.saves.active + 1)))
    case Release => if h.saves.pending == 0 then None else Some(h.(saves := h.saves.(pending := h.saves.pending - 1)))
    case EndSave => if h.saves.active == 0 then None else Some(h.(saves := h.saves.(active := h.saves.active - 1)))
    case _ => None
  }

  // ---- install() ----

  function AskStep(s: App, good: bool): Option<App>
    requires s.install.Asking?
  {
    match s.install.ask
    case Begun =>
      var refused := s.sh.uiClosing || s.sh.error || s.sh.connection.None? || !good;
      Some(s.(install := if refused then Returned(Turned) else Asking(HasConnection)))
    case Leased =>
      if s.sh.closing then Some(s.(install := Asking(Letting(Turned))))
      else Some(s.(sh := s.sh.(closing := true), install := Claiming(Claimed)))
    case _ => None
  }

  function ClaimStep(s: App): Option<App>
    requires s.install.Claiming?
  {
    match s.install.claim
    case Claimed =>
      if s.sh.saves.closing || s.sh.saves.active != 0 || s.sh.saves.pending != 0 then Some(s.(install := Claiming(Declined)))
      else Some(s.(sh := s.sh.(saves := s.sh.saves.(closing := true)), install := Frozen(SavesClosed)))
    case Declined => Some(s.(sh := s.sh.(closing := false), install := Asking(Letting(Turned))))
    case Reopened => Some(s.(sh := s.sh.(closing := false), install := Asking(Letting(Cancelled))))
    case ReleaseAfter(k) => Some(s.(sh := s.sh.(closing := false), install := Returned(k)))
  }

  function FrozenStep(s: App, good: bool): App
    requires s.install.Frozen?
  {
    match s.install.frozen
    case SavesClosed => s.(sh := s.sh.(uiClosing := true), install := Frozen(Marked))
    case Marked => s.(install := Frozen(if good then Prepared else Cancelling))
    case Cancelling => s.(install := Frozen(if good then CancelAcked else Unavailable(Uncertain)))
    case CancelAcked => s.(sh := s.sh.(uiClosing := false), install := Frozen(Reopening))
    case Reopening => s.(sh := s.sh.(saves := s.sh.saves.(closing := false)), install := Claiming(Reopened))
    case Prepared =>
      if ChildRuns(s.sh) then s.(install := Frozen(Unavailable(Stuck)))
      else s.(sh := s.sh.(slot := None), install := Down(Stopped))
    case Unavailable(k) =>
      s.(sh := s.sh.(connection := None, error := true, uiClosing := false), install := Releasing(k))
  }

  function DownStep(s: App, good: bool, spare: Pid): Option<App>
    requires s.install.Down?
  {
    match s.install.down
    case Quiesced => Some(s.(install := Down(if good then BackedUp else Dropping)))
    case BackedUp =>
      if good then Some(s.(sh := s.sh.(closed := true), install := Down(Restarting)))
      else Some(s.(install := Down(Dropping)))
    case Recover => Some(s.(sh := s.sh.(connection := None), install := Down(Respawn)))
    case Respawn =>
      var t := TrySpawn(s.sh, true, good, spare);
      Some(if t.Some? then s.(sh := t.value, install := Rising(AwaitReady(spare)))
           else s.(install := Rising(Settle(NotRecovered))))
    case _ => None
  }

  function RisingStep(s: App, good: bool): App
    requires s.install.Rising?
  {
    match s.install.rising
    case AwaitReady(p) => s.(install := Rising(if good then MarkReady(p) else Reap))
    case MarkReady(p) => s.(sh := MarkChild(s.sh), install := Rising(Connect(p)))
    case Connect(p) => s.(sh := Connected(s.sh, p), install := Rising(Settle(Recovered(p))))
    case Reap => s.(sh := ReapChild(s.sh), install := Rising(Settle(NotRecovered)))
    case Settle(k) =>
      s.(sh := s.sh.(uiClosing := false, error := s.sh.error || k.NotRecovered?), install := Rising(ReopenAfter(k)))
    case ReopenAfter(k) =>
      s.(sh := s.sh.(saves := s.sh.saves.(closing := s.sh.saves.closing && !k.Recovered?)),
         install := Claiming(ReleaseAfter(k)))
  }

  function InstallStep(s: App, good: bool, spare: Pid): Option<App> {
    match s.install
    case Idle => None
    case Asking(_) => AskStep(s, good)
    case Claiming(_) => ClaimStep(s)
    case Frozen(_) => Some(FrozenStep(s, good))
    case Releasing(k) => Some(s.(sh := s.sh.(closing := false), install := Asking(Letting(k))))
    case Down(_) => DownStep(s, good, spare)
    case Rising(_) => Some(RisingStep(s, good))
    case Returned(k) => Some(s.(phase := Phase.Ready, broken := s.broken || Bad(k), install := Idle))
  }

  /** Where install() is after its lease call `e`, if `e` is the call it makes next. */
  function MinePc(i: InstallPc, e: Event, after: Pc): Option<InstallPc> {
    match i
    case Asking(HasConnection) =>
      if !e.AcquireGate? then None else Some(if after.Inside? then Returned(Turned) else Asking(Leasing))
    case Asking(Leasing) =>
      if e.ScanDone? then Some(Asking(Leased))
      else if e.Unlock? || e.TryExclusive? || e.ScanOne? || e.Abandon? || e.LockShared? then Some(i)
      else if e.ReleaseGate? && after.Inside? then Some(Returned(Turned))
      else None
    case Asking(Letting(k)) =>
      if e.DropUpgrade? || e.LockShared? then Some(i)
      else if e.ReleaseGate? then Some(Returned(k))
      else None
    case Down(Stopped) => if e.BeginQuiescent? then Some(Down(Quieting)) else None
    case Down(Quieting) =>
      if e.ScanOne? then Some(i)
      else if e.ScanDone? then Some(Down(Quiesced))
      else if e.Abandon? then Some(Down(Dropping))
      else None
    case Down(Dropping) =>
      if e.DropUpgrade? || e.LockShared? then Some(i)
      else if e.ReleaseGate? then Some(Down(Recover))
      else None
    case _ => None
  }

  function MineStep(s: App, e: Event): Option<App> {
    var t := ProfileLease.Next(s.lease, ME, e);
    if t.None? then None
    else
      var i := MinePc(s.install, e, At(t.value, ME));
      if i.None? then None else Some(s.(lease := t.value, install := i.value))
  }

  predicate Busy(phase: Phase) {
    phase.Checking? || phase.Downloading? || phase.Installing?
  }

  function PhaseStep(s: App, h: Happening): Option<App> {
    match h
    case BeginCheck =>
      if Busy(s.phase) then None else Some(s.(phase := Checking, update := false, bytes := false))
    case CheckDone(found, update, ok) =>
      if !s.phase.Checking? then None
      else if !ok then Some(s.(phase := Failed))
      else Some(s.(phase := if found then Available else Current, update := update))
    case BeginDownload =>
      if Busy(s.phase) || !s.phase.Available? || !s.update then None else Some(s.(phase := Downloading))
    case DownloadDone(ok) =>
      if !s.phase.Downloading? then None
      else Some(if ok then s.(phase := Phase.Ready, bytes := true) else s.(phase := Available))
    case RequestInstall =>
      if Busy(s.phase) || s.phase != Phase.Ready || !s.update || !s.bytes then None
      else Some(s.(phase := Installing, install := Asking(Begun)))
    case _ => None
  }

  function With(s: App, h: Option<Shared>): Option<App> {
    if h.Some? then Some(s.(sh := h.value)) else None
  }

  function Next(s: App, h: Happening): Option<App> {
    match h
    case Elsewhere(m) =>
      if m.pid == ME || m.pid in s.sh.exited then None else Some(s.(lease := ProfileLease.Apply(s.lease, m)))
    case EngineDies(p) =>
      if p !in s.sh.spawned || p in s.sh.exited || p == ME then None
      else Some(s.(lease := ProfileLease.Apply(s.lease, Move(p, Crash)), sh := s.sh.(exited := s.sh.exited + {p})))
    case Mine(e) => MineStep(s, e)
    case Install(good, spare) => InstallStep(s, good, spare)
    case Start(good, spare) => With(s, StartStep(s.sh, good, spare))
    case Quit => With(s, QuitStep(s.sh))
    case Monitor => With(s, MonitorStep(s.sh))
    case Reserve | Release | BeginSave | EndSave => With(s, SaveStep(s.sh, h))
    case _ => PhaseStep(s, h)
  }

  function Do(s: App, h: Happening): App {
    var t := Next(s, h);
    if t.Some? then t.value else s
  }

  function Play(s: App, hs: seq<Happening>): App
    decreases |hs|
  {
    if hs == [] then s else Play(Do(s, hs[0]), hs[1..])
  }

  /** A process that has just entered the profile, beside any others. */
  ghost predicate Initial(s: App) {
    && ProfileLease.Inv(s.lease) && At(s.lease, ME).Inside?
    && s.sh == Shared(false, false, None, {}, {}, false, None, false, Saves(false, 0, 0), NotStarted, NoQuit, Resting)
    && s.phase.NoUpdate? && !s.update && !s.bytes
    && s.install.Idle? && !s.broken
  }

  // ---- What every step keeps ----

  predicate Bad(kind: Kind) {
    kind.Uncertain? || kind.Stuck? || kind.NotRecovered?
  }

  /** What the other threads may know about install(): it owns closing, holds the saves, and so on. */
  datatype View = View(owns: bool, holds: bool, taken: bool, gone: bool, engine: bool)

  predicate OwnsClosing(i: InstallPc) {
    i.Claiming? || i.Frozen? || i.Releasing? || i.Down? || i.Rising?
  }

  predicate Holds(i: InstallPc) {
    i.Frozen? || i.Down? || i.Rising?
  }

  /** A failure after which the engine's state is unknown has been reported and not yet returned. */
  predicate Going(i: InstallPc) {
    match i
    case Asking(a) => a.Letting? && Bad(a.kind)
    case Claiming(c) => c.ReleaseAfter? && Bad(c.kind)
    case Releasing(_) => true
    case Returned(k) => Bad(k)
    case _ => false
  }

  predicate Gone(s: App) {
    Going(s.install) || s.broken
  }

  predicate Early(i: InstallPc) {
    i.Idle? || i == Asking(Begun) || i == Returned(Turned)
  }

  function See(s: App): View {
    View(OwnsClosing(s.install), Holds(s.install), s.install.Down?, Gone(s), !Early(s.install))
  }

  predicate QuitShutSaves(q: QuitPc) {
    !q.NoQuit? && !q.Begin?
  }

  predicate QuitShutUi(q: QuitPc) {
    QuitShutSaves(q) && !q.SavesShut?
  }

  predicate QuitTook(q: QuitPc) {
    q.Took? || q.Closed?
  }

  predicate Coherent(v: View) {
    (v.taken ==> v.holds) && (v.holds ==> v.owns && v.engine)
  }

  /** `closing` belongs to the quit thread or to install(), never to both, and to nobody when clear. */
  predicate TokenInv(h: Shared, v: View) {
    && (h.closing <==> v.owns || !h.quit.NoQuit?)
    && !(v.owns && !h.quit.NoQuit?)
    && (QuitShutUi(h.quit) ==> h.uiClosing)
  }

  /** What a failed update leaves behind when the engine's state is unknown. */
  predicate Dead(h: Shared) {
    h.saves.closing && h.connection.None? && h.error
  }

  predicate SavesInv(h: Shared, v: View) {
    && (v.holds ==> h.saves.active == 0 && h.saves.pending == 0)
    && (h.saves.closing <==> v.holds || QuitShutSaves(h.quit) || v.gone)
    && (v.gone ==> Dead(h))
  }

  /** No engine outlives the loss of its handle, except the one the quit thread took to stop it. */
  predicate Held(h: Shared) {
    forall p :: p in h.spawned && p !in h.exited ==> h.slot.Some? && h.slot.value.pid == p
  }

  /** The handle kept is one of the children this process has spawned. */
  predicate OwnChild(h: Shared) {
    h.slot.Some? ==> h.slot.value.pid in h.spawned && h.slot.value.pid != ME
  }

  predicate EngineInv(h: Shared, v: View) {
    && OwnChild(h)
    && (QuitTook(h.quit) || v.taken ==> h.slot.None?)
    && (h.connection.Some? || v.engine || v.gone ==> h.start.Started?)
    && (!QuitTook(h.quit) ==> Held(h))
  }

  predicate SharedInv(h: Shared, v: View) {
    Coherent(v) && TokenInv(h, v) && SavesInv(h, v) && EngineInv(h, v)
  }

  lemma SpawnHeld(h: Shared, recovery: bool, good: bool, spare: Pid)
    requires Held(h) && TrySpawn(h, recovery, good, spare).Some?
    ensures Held(TrySpawn(h, recovery, good, spare).value)
  {
  }

  lemma StartKeepsEngine(h: Shared, v: View, good: bool, spare: Pid)
    requires Coherent(v) && TokenInv(h, v) && EngineInv(h, v) && StartStep(h, good, spare).Some?
    ensures EngineInv(StartStep(h, good, spare).value, v)
  {
    match h.start
    case NotStarted =>
    case Spawn =>
      if TrySpawn(h, false, good, spare).Some? {
        SpawnHeld(h, false, good, spare);
      }
    case Wait(_) =>
    case SetReady(_) =>
    case Publish(_) =>
    case Shut =>
    case Report =>
  }

  /** Steps that change neither `closing`, the saves, the page's flag nor Quit keep what is said of them. */
  predicate SameGates(h: Shared, t: Shared) {
    && t.closing == h.closing && t.closed == h.closed && t.saves == h.saves && t.quit == h.quit
    && t.uiClosing == h.uiClosing
    && (h.connection.None? && h.error ==> (t.connection.None? && t.error) || !h.start.Started?)
  }

  lemma GatesKeep(h: Shared, t: Shared, v: View)
    requires SharedInv(h, v) && SameGates(h, t) && EngineInv(t, v)
    ensures SharedInv(t, v)
  {
  }

  lemma StartKeepsGates(h: Shared, good: bool, spare: Pid)
    requires StartStep(h, good, spare).Some?
    ensures SameGates(h, StartStep(h, good, spare).value)
  {
    match h.start
    case NotStarted =>
    case Spawn =>
    case Wait(_) =>
    case SetReady(_) =>
    case Publish(_) =>
    case Shut =>
    case Report =>
  }

  lemma StartKeeps(h: Shared, v: View, good: bool, spare: Pid)
    requires SharedInv(h, v) && StartStep(h, good, spare).Some?
    ensures SharedInv(StartStep(h, good, spare).value, v)
  {
    StartKeepsEngine(h, v, good, spare);
    StartKeepsGates(h, good, spare);
    GatesKeep(h, StartStep(h, good, spare).value, v);
  }

  lemma QuitKeepsEngine(h: Shared, v: View)
    requires EngineInv(h, v) && QuitStep(h).Some?
    ensures EngineInv(QuitStep(h).value, v)
  {
    match h.quit
    case NoQuit =>
    case Begin =>
    case SavesShut =>
    case UiShut =>
    case Drained =>
    case Took =>
  }

  lemma QuitKeeps(h: Shared, v: View)
    requires SharedInv(h, v) && QuitStep(h).Some?
    ensures SharedInv(QuitStep(h).value, v)
  {
    QuitKeepsEngine(h, v);
    assert TokenInv(QuitStep(h).value, v);
  }

  lemma MonitorKeeps(h: Shared, v: View)
    requires SharedInv(h, v) && MonitorStep(h).Some?
    ensures SharedInv(MonitorStep(h).value, v)
    ensures var t := MonitorStep(h).value; t == h.(error := t.error, monitor := t.monitor) && (h.error ==> t.error)
  {
    var t := MonitorStep(h).value;
    assert t == h.(error := t.error, monitor := t.monitor) && (h.error ==> t.error);
    GatesKeep(h, t, v);
  }

  lemma SaveKeeps(h: Shared, v: View, e: Happening)
    requires SharedInv(h, v) && SaveStep(h, e).Some?
    ensures SharedInv(SaveStep(h, e).value, v)
  {
  }

  /** Which failures each point of install() can carry, and that a gone update stays where it ended. */
  predicate Kinds(s: App) {
    && (s.broken ==> Early(s.install))
    && match s.install
       case Asking(Letting(k)) => !k.Recovered? && !k.NotRecovered?
       case Frozen(Unavailable(k)) => k.Uncertain? || k.Stuck?
       case Releasing(k) => k.Uncertain? || k.Stuck?
       case Rising(Settle(k)) => k.Recovered? || k.NotRecovered?
       case Rising(ReopenAfter(k)) => k.Recovered? || k.NotRecovered?
       case Claiming(ReleaseAfter(k)) => k.Recovered? || k.NotRecovered?
       case _ => true
  }

  /** What has already happened at each point of the two ways back. */
  predicate Progress(s: App) {
    match s.install
    case Asking(a) => !a.Begun? && !(a.Letting? && Bad(a.kind)) ==> s.sh.connection.Some?
    case Claiming(Claimed) => s.sh.connection.Some?
    case Claiming(Declined) => s.sh.connection.Some?
    case Claiming(Reopened) => s.sh.connection.Some?
    case Frozen(_) => s.sh.connection.Some?
    case Down(Respawn) => s.sh.connection.None?
    case Rising(AwaitReady(_)) => s.sh.connection.None?
    case Rising(MarkReady(_)) => s.sh.connection.None?
    case Rising(Connect(_)) => s.sh.connection.None?
    case Rising(Reap) => s.sh.connection.None?
    case Rising(Settle(k)) => if k.Recovered? then s.sh.connection == Some(k.pid) else s.sh.connection.None?
    case Rising(ReopenAfter(k)) =>
      if k.Recovered? then s.sh.connection == Some(k.pid) else s.sh.connection.None? && s.sh.error
    case Claiming(ReleaseAfter(k)) => k.Recovered? ==> s.sh.connection == Some(k.pid)
    case Returned(k) => (k.Recovered? ==> s.sh.connection == Some(k.pid)) && (k.Cancelled? ==> s.sh.connection.Some?)
    case _ => true
  }

  predicate PhaseInv(s: App) {
    && (s.phase.Installing? <==> !s.install.Idle?)
    && (s.phase.Downloading? || s.phase.Ready? || s.phase.Installing? ==> s.update)
    && (s.phase.Ready? || s.phase.Installing? ==> s.bytes)
  }

  predicate Core(s: App) {
    SharedInv(s.sh, See(s)) && Kinds(s) && Progress(s) && PhaseInv(s)
  }

  lemma AskKeeps(s: App, good: bool)
    requires Core(s) && s.install.Asking? && AskStep(s, good).Some?
    ensures Core(AskStep(s, good).value)
  {
  }

  lemma ClaimKeeps(s: App)
    requires Core(s) && s.install.Claiming? && ClaimStep(s).Some?
    ensures Core(ClaimStep(s).value)
  {
    match s.install.claim
    case Claimed =>
    case Declined =>
    case Reopened =>
    case ReleaseAfter(_) =>
  }

  lemma FrozenKeeps(s: App, good: bool)
    requires Core(s) && s.install.Frozen?
    ensures Core(FrozenStep(s, good))
  {
  }

  lemma DownKeeps(s: App, good: bool, spare: Pid)
    requires Core(s) && s.install.Down? && DownStep(s, good, spare).Some?
    ensures Core(DownStep(s, good, spare).value)
  {
  }

  lemma RisingKeeps(s: App, good: bool)
    requires Core(s) && s.install.Rising?
    ensures Core(RisingStep(s, good))
  {
  }

  lemma InstallKeeps(s: App, good: bool, spare: Pid)
    requires Core(s) && InstallStep(s, good, spare).Some?
    ensures Core(InstallStep(s, good, spare).value)
  {
    match s.install
    case Asking(_) => AskKeeps(s, good);
    case Claiming(_) => ClaimKeeps(s);
    case Frozen(_) => FrozenKeeps(s, good);
    case Down(_) => DownKeeps(s, good, spare);
    case Rising(_) => RisingKeeps(s, good);
    case _ =>
  }

  /** install() moves no other thread, admits no save, and forgets no broken ending. */
  predicate Leaves(s: App, t: App) {
    && t.sh.quit == s.sh.quit && t.sh.saves.active == s.sh.saves.active && (s.broken ==> t.broken)
    && (t.sh.closed ==> s.sh.closed || t.install == Down(Restarting))
  }

  lemma AskLeaves(s: App, good: bool)
    requires s.install.Asking? && AskStep(s, good).Some?
    ensures Leaves(s, AskStep(s, good).value)
  {
  }

  lemma ClaimLeaves(s: App)
    requires s.install.Claiming? && ClaimStep(s).Some?
    ensures Leaves(s, ClaimStep(s).value)
  {
  }

  lemma FrozenLeaves(s: App, good: bool)
    requires s.install.Frozen?
    ensures Leaves(s, FrozenStep(s, good))
  {
    match s.install.frozen
    case SavesClosed =>
    case Marked =>
    case Cancelling =>
    case CancelAcked =>
    case Reopening =>
    case Prepared =>
    case Unavailable(_) =>
  }

  lemma DownLeaves(s: App, good: bool, spare: Pid)
    requires s.install.Down? && DownStep(s, good, spare).Some?
    ensures Leaves(s, DownStep(s, good, spare).value)
  {
  }

  lemma RisingLeaves(s: App, good: bool)
    requires s.install.Rising?
    ensures Leaves(s, RisingStep(s, good))
  {
    match s.install.rising
    case AwaitReady(p) =>
    case MarkReady(p) =>
    case Connect(p) =>
    case Reap =>
    case Settle(k) =>
    case ReopenAfter(k) =>
  }

  lemma InstallLeaves(s: App, good: bool, spare: Pid)
    requires InstallStep(s, good, spare).Some?
    ensures Leaves(s, InstallStep(s, good, spare).value)
  {
    match s.install
    case Asking(_) => AskLeaves(s, good);
    case Claiming(_) => ClaimLeaves(s);
    case Frozen(_) => FrozenLeaves(s, good);
    case Down(_) => DownLeaves(s, good, spare);
    case Rising(_) => RisingLeaves(s, good);
    case _ =>
  }

  lemma MineLeaves(s: App, e: Event)
    requires MineStep(s, e).Some?
    ensures MineStep(s, e).value.sh == s.sh && MineStep(s, e).value.broken == s.broken
    ensures s.install != Down(Restarting)
  {
  }

  /** Every other step but Quit's own leaves the quit thread where it is, and admits no save once they are closed. */
  lemma OthersLeaveQuit(s: App, h: Happening)
    requires !h.Quit? && !h.Install?
    ensures Do(s, h).sh.quit == s.sh.quit && Do(s, h).broken == s.broken
    ensures s.sh.saves.closing ==> Do(s, h).sh.saves.active <= s.sh.saves.active
  {
    if Next(s, h).Some? {
      match h
      case Mine(e) => MineLeaves(s, e);
      case Start(good, spare) => StartKeepsGates(s.sh, good, spare);
      case _ =>
    }
  }

  lemma PhaseKeeps(s: App, h: Happening)
    requires Core(s) && PhaseStep(s, h).Some?
    ensures Core(PhaseStep(s, h).value)
  {
  }

  // ---- The lease beside it ----

  predicate Fits(i: InstallPc, pc: Pc) {
    match i
    case Asking(a) =>
      if a.Leasing? then pc.ExclGate? || pc.ExclUnlocked? || pc.ExclScan? || pc.Relock? || pc.Admitted?
      else if a.Leased? then pc.Upgrade?
      else if a.Letting? then pc.Upgrade? || pc.Relock? || pc.Admitted?
      else pc.Inside?
    case Claiming(c) => if c.ReleaseAfter? then pc.Inside? else pc.Upgrade?
    case Frozen(_) => pc.Upgrade?
    case Releasing(_) => pc.Upgrade?
    case Down(d) =>
      if d.Quieting? then pc.QuietScan?
      else if d.Dropping? then pc.Upgrade? || pc.Relock? || pc.Admitted?
      else if d.Recover? || d.Respawn? then pc.Inside?
      else pc.Upgrade?
    case _ => pc.Inside?
  }

  /** quiescent() has returned Ok and the guard has not been dropped. */
  predicate Quieted(i: InstallPc) {
    i == Down(Quiesced) || i == Down(BackedUp) || i == Down(Restarting)
  }

  ghost predicate LeaseInv(s: App) {
    && ProfileLease.Inv(s.lease)
    && Fits(s.install, At(s.lease, ME))
    && (Quieted(s.install) ==> LiveWriters(s.lease) == {})
  }

  /** `closed` is set by a finished Quit, or by an installer that took over. */
  predicate ClosedInv(s: App) {
    s.sh.closed ==> s.sh.quit.Closed? || s.install == Down(Restarting)
  }

  /** install() has told the page that the application is closing and not taken it back. */
  predicate Marks(i: InstallPc) {
    match i
    case Frozen(f) => !f.SavesClosed? && !f.Reopening?
    case Down(_) => true
    case Rising(r) => !r.ReopenAfter?
    case _ => false
  }

  predicate UiInv(s: App) {
    s.sh.uiClosing <==> QuitShutUi(s.sh.quit) || Marks(s.install)
  }

  ghost predicate Inv(s: App) {
    Core(s) && LeaseInv(s) && ClosedInv(s) && UiInv(s)
  }

  lemma InitialInv(s: App)
    requires Initial(s)
    ensures Inv(s)
  {
  }

  lemma BesideKeeps(s: App, m: Move)
    requires LeaseInv(s) && m.pid != ME
    ensures LeaseInv(s.(lease := ProfileLease.Apply(s.lease, m)))
  {
    ProfileLease.StepInv(s.lease, m);
    OthersStay(s.lease, m, ME);
    if Quieted(s.install) {
      HeldStep(s.lease, m, ME);
    }
  }

  lemma MineFits(s: App, e: Event)
    requires LeaseInv(s) && MineStep(s, e).Some?
    ensures Fits(MineStep(s, e).value.install, At(MineStep(s, e).value.lease, ME))
  {
  }

  lemma MineQuiets(s: App, e: Event)
    requires LeaseInv(s) && MineStep(s, e).Some?
    ensures Quieted(MineStep(s, e).value.install) ==> LiveWriters(MineStep(s, e).value.lease) == {}
  {
    if s.install == Down(Quieting) && e.ScanDone? {
      QuietUntilDropped(s.lease, ME, []);
    }
  }

  lemma MineKeepsCore(s: App, e: Event)
    requires Core(s) && MineStep(s, e).Some?
    ensures Core(MineStep(s, e).value)
  {
  }

  ghost predicate SameLease(s: App, t: App, pc: Pc) {
    t.lease == s.lease && Fits(t.install, pc) && (Quieted(t.install) ==> Quieted(s.install))
  }

  lemma AskStays(s: App, good: bool, pc: Pc)
    requires s.install.Asking? && Fits(s.install, pc) && AskStep(s, good).Some?
    ensures SameLease(s, AskStep(s, good).value, pc)
  {
  }

  lemma ClaimStays(s: App, pc: Pc)
    requires s.install.Claiming? && Fits(s.install, pc) && ClaimStep(s).Some?
    ensures SameLease(s, ClaimStep(s).value, pc)
  {
  }

  lemma DownStays(s: App, good: bool, spare: Pid, pc: Pc)
    requires s.install.Down? && Fits(s.install, pc) && DownStep(s, good, spare).Some?
    ensures SameLease(s, DownStep(s, good, spare).value, pc)
  {
  }

  lemma InstallStays(s: App, good: bool, spare: Pid, pc: Pc)
    requires Fits(s.install, pc) && InstallStep(s, good, spare).Some?
    ensures SameLease(s, InstallStep(s, good, spare).value, pc)
  {
    match s.install
    case Asking(_) => AskStays(s, good, pc);
    case Claiming(_) => ClaimStays(s, pc);
    case Frozen(_) => assert FrozenStep(s, good).install.Frozen? || FrozenStep(s, good).install.Claiming?
                             || FrozenStep(s, good).install.Releasing? || FrozenStep(s, good).install == Down(Stopped);
    case Down(_) => DownStays(s, good, spare, pc);
    case Rising(_) => assert RisingStep(s, good).install.Rising? || RisingStep(s, good).install.Claiming?;
    case _ =>
  }

  lemma PhaseFits(s: App, h: Happening)
    requires PhaseInv(s) && LeaseInv(s) && PhaseStep(s, h).Some?
    ensures LeaseInv(PhaseStep(s, h).value)
  {
  }

  lemma DieKeeps(s: App, p: Pid)
    requires Core(s)
    ensures Core(s.(sh := s.sh.(exited := s.sh.exited + {p})))
  {
  }

  predicate Side(h: Happening) {
    h.Start? || h.Quit? || h.Monitor? || h.Reserve? || h.Release? || h.BeginSave? || h.EndSave?
  }

  /** No other thread connects an engine once install() has passed its first check. */
  lemma SideProgress(s: App, h: Happening)
    requires Core(s) && Side(h)
    ensures Progress(Do(s, h))
    ensures !Early(s.install) ==> Do(s, h).sh.connection == s.sh.connection && (s.sh.error ==> Do(s, h).sh.error)
  {
    assert !Early(s.install) ==> s.sh.start.Started?;
    assert Do(s, h).sh.connection == s.sh.connection || Early(s.install);
    assert s.sh.error ==> Do(s, h).sh.error || Early(s.install);
  }

  lemma SideKeeps(s: App, h: Happening)
    requires Core(s) && Side(h)
    ensures Core(Do(s, h))
  {
    SideProgress(s, h);
    if Next(s, h).Some? {
      match h
      case Start(good, spare) => StartKeeps(s.sh, See(s), good, spare);
      case Quit => QuitKeeps(s.sh, See(s));
      case Monitor => MonitorKeeps(s.sh, See(s));
      case _ => SaveKeeps(s.sh, See(s), h);
    }
    assert See(Do(s, h)) == See(s);
  }

  lemma LeaseKeeps(s: App, h: Happening)
    requires Core(s) && LeaseInv(s) && (h.Elsewhere? || h.EngineDies? || h.Mine?)
    ensures Core(Do(s, h)) && LeaseInv(Do(s, h))
  {
    if Next(s, h).Some? {
      match h
      case Elsewhere(m) => BesideKeeps(s, m);
      case EngineDies(p) =>
        BesideKeeps(s, Move(p, Crash));
        DieKeeps(s, p);
      case Mine(e) =>
        ProfileLease.StepInv(s.lease, Move(ME, e));
        MineFits(s, e);
        MineQuiets(s, e);
        MineKeepsCore(s, e);
    }
  }

  lemma FrozenUi(s: App, good: bool)
    requires s.install.Frozen? && s.sh.quit.NoQuit? && UiInv(s)
    ensures UiInv(FrozenStep(s, good))
  {
    hide ChildRuns;
    match s.install.frozen
    case SavesClosed =>
    case Marked =>
    case Cancelling =>
    case CancelAcked =>
    case Reopening =>
    case Prepared =>
    case Unavailable(_) =>
  }

  lemma RisingUi(s: App, good: bool)
    requires s.install.Rising? && s.sh.quit.NoQuit? && UiInv(s)
    ensures UiInv(RisingStep(s, good))
  {
  }

  lemma InstallUi(s: App, good: bool, spare: Pid)
    requires InstallStep(s, good, spare).Some? && UiInv(s) && (OwnsClosing(s.install) ==> s.sh.quit.NoQuit?)
    ensures UiInv(InstallStep(s, good, spare).value)
  {
    match s.install
    case Asking(_) =>
    case Claiming(_) =>
    case Frozen(_) => FrozenUi(s, good);
    case Down(_) =>
    case Rising(_) => RisingUi(s, good);
    case _ =>
  }

  lemma SideUi(s: App, h: Happening)
    requires UiInv(s) && Side(h) && Next(s, h).Some?
    ensures UiInv(Do(s, h))
  {
    hide SaveStep, StartStep, MonitorStep;
    match h
    case Start(good, spare) => StartKeepsGates(s.sh, good, spare);
    case Quit =>
    case Monitor => MonitorUi(s.sh);
    case _ => SaveClosed(s.sh, h);
  }

  lemma MonitorUi(h: Shared)
    requires MonitorStep(h).Some?
    ensures MonitorStep(h).value.uiClosing == h.uiClosing && MonitorStep(h).value.quit == h.quit
  {
  }

  lemma StepUi(s: App, h: Happening)
    requires Core(s) && UiInv(s) && Next(s, h).Some?
    ensures UiInv(Do(s, h))
  {
    if h.Install? {
      hide EngineInv, SavesInv, Progress, Kinds;
      InstallUi(s, h.good, h.spare);
    } else if Side(h) {
      SideUi(s, h);
    } else if h.Mine? {
      hide Core;
      MineMarks(s, h.event);
    } else if h.Elsewhere? || h.EngineDies? {
    } else {
      assert Do(s, h).sh == s.sh && !Marks(s.install) && !Marks(Do(s, h).install);
    }
  }

  lemma MineMarks(s: App, e: Event)
    requires MineStep(s, e).Some?
    ensures MineStep(s, e).value.sh == s.sh && (Marks(MineStep(s, e).value.install) <==> Marks(s.install))
  {
  }

  lemma QuitClosed(h: Shared)
    requires QuitStep(h).Some?
    ensures QuitStep(h).value.closed ==> h.closed || QuitStep(h).value.quit.Closed?
    ensures !h.quit.Closed?
  {
  }

  lemma SideClosed(s: App, h: Happening)
    requires ClosedInv(s) && Side(h) && Next(s, h).Some?
    ensures ClosedInv(Do(s, h))
  {
    hide SaveStep;
    match h
    case Start(good, spare) => StartKeepsGates(s.sh, good, spare);
    case Quit => QuitClosed(s.sh);
    case Monitor => assert MonitorStep(s.sh).value.closed == s.sh.closed;
    case _ => SaveClosed(s.sh, h);
  }

  lemma SaveClosed(h: Shared, e: Happening)
    requires SaveStep(h, e).Some?
    ensures SaveStep(h, e).value == h.(saves := SaveStep(h, e).value.saves)
  {
  }

  lemma StepClosed(s: App, h: Happening)
    requires PhaseInv(s) && ClosedInv(s) && Next(s, h).Some?
    ensures ClosedInv(Do(s, h))
  {
    if h.Install? {
      InstallLeaves(s, h.good, h.spare);
      assert s.install != Down(Restarting);
    } else if Side(h) {
      SideClosed(s, h);
    } else if h.Mine? {
      MineLeaves(s, h.event);
    } else if h.Elsewhere? || h.EngineDies? {
    } else {
      assert Do(s, h).sh == s.sh && s.install != Down(Restarting);
    }
  }

  lemma StepInv(s: App, h: Happening)
    requires Inv(s)
    ensures Inv(Do(s, h))
  {
    if Next(s, h).Some? {
      StepClosed(s, h);
      StepUi(s, h);
    }
    if h.Elsewhere? || h.EngineDies? || h.Mine? {
      LeaseKeeps(s, h);
    } else if Side(h) {
      SideKeeps(s, h);
    } else if h.Install? && Next(s, h).Some? {
      InstallKeeps(s, h.good, h.spare);
      InstallStays(s, h.good, h.spare, At(s.lease, ME));
    } else if Next(s, h).Some? {
      PhaseKeeps(s, h);
      PhaseFits(s, h);
    }
  }
}
