/**
 Saving into one folder (native_export.rs, publish.rs) as an interleaving machine. Any number of savers
 stage, re-validate and publish; the application may close, reopen or protect an uploaded source; other
 programs may put, replace or remove any entry between any two steps. Only the final re-validation and
 the publication run under the saves mutex.

 File identities are the folder's inode numbers. A staged file has an unguessable name, so nothing but
 its own saver reaches it, and its identity is not one that any listing of the folder has shown before.
 */
module Publication {
  import opened Basics

  type Saver = nat
  type Id = nat
  type Name = string
  type Bytes = seq<int>

  const MAX_SOURCE_IDENTITIES := 1024
  const MAX_SOURCE_ALIASES := 4096

  datatype File = File(id: Id, bytes: Bytes, stamp: nat)

  /** A folder entry: a regular file, or a link or directory, which is never a destination. */
  datatype Entry = Regular(file: File) | Odd

  /** What `inspect` remembers of a destination. */
  datatype Print = Print(id: Id, size: nat, stamp: nat)

  datatype Temp = Temp(owner: Saver, bytes: Bytes)

  /** `home`: the destination path still leads to the folder that the saver retained. */
  datatype Disk = Disk(home: bool, dir: map<Name, Entry>, staged: map<Id, Temp>, seen: set<Id>)

  datatype Activity = Activity(closing: bool, active: nat, pending: nat, sources: set<Id>, aliases: set<Name>)

  /** Progress inside the mutex. `mark` is the length of the log when the destination was inspected. */
  datatype Part = Entered | Inspected(mark: nat) | Guarded(mark: nat) | Verified(mark: nat)

  datatype Stage =
    | Choosing                                    // Pending held, dialog open
    | Chosen                                      // target confirmed
    | Begun                                       // Active held
    | Checked                                     // copy(): not closing
    | Vetted                                      // copy(): target validated
    | Staging(id: Id, got: Bytes)                 // temporary created, transfer running
    | Synced(id: Id, got: Bytes)                  // whole length received and flushed
    | Locked(id: Id, got: Bytes, part: Part)      // mutex held for the final checks
    | Cleaning(id: Id)                            // mutex released, Temporary about to drop
    | Dropping                                    // Active about to drop
    | Leaving                                     // Pending about to drop

  datatype Job = Job(name: Name, confirmed: Option<Print>, length: nat, stage: Stage)

  datatype Note =
    | Published(saver: Saver, name: Name, confirmed: Option<Print>, length: nat, replaced: Option<Entry>, file: File,
                sources: set<Id>, aliases: set<Name>, mark: nat)
    | Touched(name: Name)
    | Closed
    | Reopened

  datatype World = World(holder: Option<Saver>, act: Activity, disk: Disk, jobs: map<Saver, Job>, log: seq<Note>)

  datatype Deed =
    | Reserve
    | Confirm(name: Name)
    | Begin(length: nat)
    | Check
    | Vet
    | Create(id: Id)
    | Receive(chunk: Bytes)
    | Sync
    | Enter
    | Inspect
    | Guard
    | Verify
    | Publish(stamp: nat)
    | Fail
    | Clean
    | EndActive
    | EndPending

  datatype Outside =
    | Close
    | CloseIfIdle
    | Reopen
    | Protect(id: Id, alias: Name)
    | Touch(name: Name, entry: Option<Entry>)
    | Move(home: bool)

  datatype Event = By(saver: Saver, deed: Deed) | Other(outside: Outside)

  const EMPTY := World(None, Activity(false, 0, 0, {}, {}), Disk(true, map[], map[], {}), map[], [])

  function Printed(file: File): Print {
    Print(file.id, |file.bytes|, file.stamp)
  }

  predicate Matches(dir: map<Name, Entry>, name: Name, confirmed: Option<Print>) {
    if name !in dir then confirmed.None?
    else dir[name].Regular? && confirmed == Some(Printed(dir[name].file))
  }

  /** `protect_locked`: neither the name nor the file behind it belongs to an uploaded source. */
  predicate Spared(act: Activity, dir: map<Name, Entry>, name: Name) {
    && name !in act.aliases
    && (name in dir && dir[name].Regular? ==> dir[name].file.id !in act.sources)
  }

  predicate Transferring(stage: Stage) {
    !stage.Choosing? && !stage.Chosen? && !stage.Leaving?
  }

  predicate Busy(w: World, t: Saver) {
    t in w.jobs && Transferring(w.jobs[t].stage)
  }

  /** The savers between `begin` and the drop of its guard. */
  function Transfers(w: World): set<Saver> {
    set t | t in w.jobs && Busy(w, t)
  }

  /** The saver still has a temporary file of its own to publish. */
  predicate Stages(stage: Stage) {
    stage.Staging? || stage.Synced? || stage.Locked?
  }

  function At(w: World, t: Saver, stage: Stage): World
    requires t in w.jobs
  {
    w.(jobs := w.jobs[t := w.jobs[t].(stage := stage)])
  }

  /** An error return from anywhere: the guards that are held drop one after the other. */
  function Failed(w: World, t: Saver): Option<World>
    requires t in w.jobs
  {
    match w.jobs[t].stage
    case Choosing => Some(At(w, t, Leaving))
    case Chosen => Some(At(w, t, Leaving))
    case Begun => Some(At(w, t, Dropping))
    case Checked => Some(At(w, t, Dropping))
    case Vetted => Some(At(w, t, Dropping))
    case Staging(id, _) => Some(At(w, t, Cleaning(id)))
    case Synced(id, _) => Some(At(w, t, Cleaning(id)))
    case Locked(id, _, _) => Some(At(w.(holder := None), t, Cleaning(id)))
    case _ => None
  }

  /** The steps of a saver up to the point where it asks for the mutex for the last time. */
  function Staged(w: World, t: Saver, d: Deed): Option<World>
    requires t in w.jobs
  {
    var job := w.jobs[t];
    match d
    case Confirm(name) =>
      if !job.stage.Choosing? || w.holder.Some? || !w.disk.home || !Spared(w.act, w.disk.dir, name)
         || (name in w.disk.dir && w.disk.dir[name].Odd?) then None
      else
        var confirmed := if name in w.disk.dir then Some(Printed(w.disk.dir[name].file)) else None;
        Some(w.(jobs := w.jobs[t := Job(name, confirmed, 0, Chosen)]))
    case Check =>
      if !job.stage.Begun? || w.holder.Some? || w.act.closing then None else Some(At(w, t, Checked))
    case Vet =>
      if !job.stage.Checked? || w.holder.Some? || !w.disk.home || !Matches(w.disk.dir, job.name, job.confirmed)
         || !Spared(w.act, w.disk.dir, job.name) then None
      else Some(At(w, t, Vetted))
    case Create(id) =>
      if !job.stage.Vetted? || id in w.disk.seen || id in w.disk.staged then None
      else Some(At(w.(disk := w.disk.(staged := w.disk.staged[id := Temp(t, [])])), t, Staging(id, [])))
    case Receive(chunk) =>
      if !job.stage.Staging? || w.holder.Some? || w.act.closing || |job.stage.got| + |chunk| > job.length then None
      else
        var got := job.stage.got + chunk;
        Some(At(w.(disk := w.disk.(staged := w.disk.staged[job.stage.id := Temp(t, got)])), t,
                Staging(job.stage.id, got)))
    case Sync =>
      if !job.stage.Staging? || |job.stage.got| != job.length then None
      else Some(At(w, t, Synced(job.stage.id, job.stage.got)))
    case _ => None
  }

  /** What publication leaves behind. */
  function Moved(w: World, t: Saver, stamp: nat): World
    requires t in w.jobs && w.jobs[t].stage.Locked? && w.jobs[t].stage.part.Verified?
    requires w.jobs[t].stage.id in w.disk.staged
  {
    var job := w.jobs[t];
    var file := File(job.stage.id, w.disk.staged[job.stage.id].bytes, stamp);
    var replaced := if job.name in w.disk.dir then Some(w.disk.dir[job.name]) else None;
    var note := Published(t, job.name, job.confirmed, job.length, replaced, file, w.act.sources, w.act.aliases,
                          job.stage.part.mark);
    var disk := w.disk.(dir := w.disk.dir[job.name := Regular(file)], staged := w.disk.staged - {file.id},
                        seen := w.disk.seen + {file.id});
    At(w.(holder := None, disk := disk, log := w.log + [note]), t, Cleaning(file.id))
  }

  /** The steps under the mutex: closing, destination, protection, temporary, publication. */
  function Final(w: World, t: Saver, d: Deed): Option<World>
    requires t in w.jobs
  {
    var job := w.jobs[t];
    if d.Enter? then
      if !job.stage.Synced? || w.holder.Some? || w.act.closing then None
      else Some(At(w.(holder := Some(t)), t, Locked(job.stage.id, job.stage.got, Entered)))
    else if !job.stage.Locked? then None
    else
      var id, got, part := job.stage.id, job.stage.got, job.stage.part;
      match d
      case Inspect =>
        if !part.Entered? || !w.disk.home || !Matches(w.disk.dir, job.name, job.confirmed) then None
        else Some(At(w, t, Locked(id, got, Inspected(|w.log|))))
      case Guard =>
        if !part.Inspected? || !Spared(w.act, w.disk.dir, job.name) then None
        else Some(At(w, t, Locked(id, got, Guarded(part.mark))))
      case Verify =>
        if !part.Guarded? || id !in w.disk.staged || |w.disk.staged[id].bytes| != job.length then None
        else Some(At(w, t, Locked(id, got, Verified(part.mark))))
      case Publish(stamp) =>
        // A new destination is moved without replacing; a confirmed one is replaced by rename.
        if !part.Verified? || id !in w.disk.staged || (job.confirmed.None? && job.name in w.disk.dir) then None
        else Some(Moved(w, t, stamp))
      case _ => None
  }

  /** The guards of a save: Pending from `reserve`, Active from `begin`. */
  function Guards(w: World, t: Saver, d: Deed): Option<World> {
    match d
    case Reserve =>
      if t in w.jobs || w.holder.Some? || w.act.closing then None
      else Some(w.(act := w.act.(pending := w.act.pending + 1), jobs := w.jobs[t := Job("", None, 0, Choosing)]))
    case Begin(length) =>
      if t !in w.jobs || !w.jobs[t].stage.Chosen? || w.holder.Some? || w.act.closing then None
      else Some(w.(act := w.act.(active := w.act.active + 1),
                   jobs := w.jobs[t := w.jobs[t].(length := length, stage := Begun)]))
    case Clean =>
      if t !in w.jobs || !w.jobs[t].stage.Cleaning? then None
      else Some(At(w.(disk := w.disk.(staged := w.disk.staged - {w.jobs[t].stage.id})), t, Dropping))
    case EndActive =>
      if t !in w.jobs || !w.jobs[t].stage.Dropping? || w.holder.Some? || w.act.active == 0 then None
      else Some(At(w.(act := w.act.(active := w.act.active - 1)), t, Leaving))
    case EndPending =>
      if t !in w.jobs || !w.jobs[t].stage.Leaving? || w.holder.Some? || w.act.pending == 0 then None
      else Some(w.(act := w.act.(pending := w.act.pending - 1), jobs := w.jobs - {t}))
    case _ => None
  }

  function Around(w: World, o: Outside): Option<World> {
    match o
    case Close =>
      if w.holder.Some? then None else Some(w.(act := w.act.(closing := true), log := w.log + [Closed]))
    case CloseIfIdle =>
      if w.holder.Some? || w.act.closing || w.act.active != 0 || w.act.pending != 0 then None
      else Some(w.(act := w.act.(closing := true), log := w.log + [Closed]))
    case Reopen =>
      if w.holder.Some? then None else Some(w.(act := w.act.(closing := false), log := w.log + [Reopened]))
    case Protect(id, alias) =>
      if w.holder.Some? || w.act.closing || Full(w.act, id, alias) then None
      else Some(w.(act := w.act.(sources := w.act.sources + {id}, aliases := w.act.aliases + {alias})))
    case Touch(name, entry) =>
      if entry.Some? && entry.value.Regular? && entry.value.file.id in w.disk.staged then None
      else
        var dir := if entry.None? then w.disk.dir - {name} else w.disk.dir[name := entry.value];
        var seen := if entry.Some? && entry.value.Regular? then w.disk.seen + {entry.value.file.id} else w.disk.seen;
        Some(w.(disk := w.disk.(dir := dir, seen := seen), log := w.log + [Touched(name)]))
    case Move(home) => Some(w.(disk := w.disk.(home := home)))
  }

  /** A new entry would exceed one of the two ledgers. */
  predicate Full(act: Activity, id: Id, alias: Name) {
    || (id !in act.sources && |act.sources| >= MAX_SOURCE_IDENTITIES)
    || (alias !in act.aliases && |act.aliases| >= MAX_SOURCE_ALIASES)
  }

  function Next(w: World, e: Event): Option<World> {
    match e
    case Other(o) => Around(w, o)
    case By(t, d) =>
      if d.Reserve? || d.Begin? || d.Clean? || d.EndActive? || d.EndPending? then Guards(w, t, d)
      else if t !in w.jobs then None
      else if d.Fail? then Failed(w, t)
      else if d.Confirm? || d.Check? || d.Vet? || d.Create? || d.Receive? || d.Sync? then Staged(w, t, d)
      else Final(w, t, d)
  }

  function Apply(w: World, e: Event): World {
    var next := Next(w, e);
    if next.Some? then next.value else w
  }

  function Run(w: World, script: seq<Event>): World
    decreases script
  {
    if script == [] then w else Run(Apply(w, script[0]), script[1..])
  }

  // ---- The log ----

  predicate TouchedIn(log: seq<Note>, name: Name, from: nat, to: nat)
    requires to <= |log|
  {
    exists i :: from <= i < to && log[i] == Touched(name)
  }

  /** The last close or reopen was a close. */
  predicate ClosedBy(log: seq<Note>) {
    if log == [] then false
    else if log[|log| - 1].Closed? then true
    else if log[|log| - 1].Reopened? then false
    else ClosedBy(log[..|log| - 1])
  }

  /** What the saver checked still holds at `end`, unless another program changed the name since. */
  predicate Sound(note: Note, log: seq<Note>, end: nat)
    requires note.Published? && end <= |log|
  {
    && note.mark <= end
    && |note.file.bytes| == note.length
    && note.name !in note.aliases
    && (note.confirmed.None? ==> note.replaced.None?)
    && (!TouchedIn(log, note.name, note.mark, end) ==>
          match note.confirmed
          case None => true
          case Some(p) => note.replaced.Some? && note.replaced.value.Regular?
                          && Printed(note.replaced.value.file) == p && p.id !in note.sources)
  }

  /** No earlier publication used the same confirmation, unless another program changed the name between. */
  predicate First(log: seq<Note>, j: nat)
    requires j < |log|
  {
    log[j].Published? ==>
      forall i :: 0 <= i < j && log[i].Published? && log[i].name == log[j].name && log[i].confirmed == log[j].confirmed ==>
        TouchedIn(log, log[j].name, i + 1, j)
  }

  predicate Written(log: seq<Note>, j: nat)
    requires j < |log|
  {
    log[j].Published? ==> Sound(log[j], log, j) && !ClosedBy(log[..j])
  }

  // ---- Invariants ----

  predicate MutexInv(w: World) {
    && (forall t :: t in w.jobs ==> (w.jobs[t].stage.Locked? <==> w.holder == Some(t)))
    && (w.holder.Some? ==> w.holder.value in w.jobs && !w.act.closing)
  }

  predicate CountInv(w: World) {
    w.act.active == |Transfers(w)| && w.act.pending == |w.jobs|
  }

  predicate Keeps(w: World, t: Saver)
    requires t in w.jobs
  {
    var job := w.jobs[t];
    && (Stages(job.stage) ==>
          && job.stage.id in w.disk.staged && w.disk.staged[job.stage.id] == Temp(t, job.stage.got)
          && |job.stage.got| <= job.length && (!job.stage.Staging? ==> |job.stage.got| == job.length))
    && (job.stage.Cleaning? ==>
          if job.stage.id in w.disk.staged then w.disk.staged[job.stage.id].owner == t
          else job.stage.id in w.disk.seen)
  }

  /** A temporary file that is still there belongs to a transfer that will remove or publish it. */
  predicate Kept(w: World, id: Id)
    requires id in w.disk.staged
  {
    var t := w.disk.staged[id].owner;
    && t in w.jobs && (Stages(w.jobs[t].stage) || w.jobs[t].stage.Cleaning?)
    && w.jobs[t].stage.id == id
  }

  predicate KeepsInv(w: World) {
    forall t :: t in w.jobs ==> Keeps(w, t)
  }

  predicate KeptInv(w: World) {
    forall id :: id in w.disk.staged ==> Kept(w, id)
  }

  predicate StagedInv(w: World) {
    KeepsInv(w) && KeptInv(w)
  }

  predicate Known(w: World, p: Option<Print>) {
    p.Some? ==> p.value.id in w.disk.seen
  }

  predicate SeenInv(w: World) {
    && w.disk.staged.Keys !! w.disk.seen
    && (forall n :: n in w.disk.dir && w.disk.dir[n].Regular? ==> w.disk.dir[n].file.id in w.disk.seen)
    && (forall t :: t in w.jobs ==> Known(w, w.jobs[t].confirmed))
    && (forall i :: 0 <= i < |w.log| && w.log[i].Published? ==> Known(w, w.log[i].confirmed))
  }

  /** What the holder of the mutex has established so far. */
  predicate Facts(w: World, job: Job) {
    job.stage.Locked? && !job.stage.part.Entered? ==>
      var mark := job.stage.part.mark;
      && mark <= |w.log|
      && (forall i :: mark <= i < |w.log| ==> w.log[i].Touched?)
      && (!TouchedIn(w.log, job.name, mark, |w.log|) ==> Matches(w.disk.dir, job.name, job.confirmed))
      && (!job.stage.part.Inspected? ==>
            && job.name !in w.act.aliases
            && (!TouchedIn(w.log, job.name, mark, |w.log|) && job.confirmed.Some? ==>
                  job.confirmed.value.id !in w.act.sources))
  }

  predicate FactsInv(w: World) {
    forall t :: t in w.jobs ==> Facts(w, w.jobs[t])
  }

  predicate LogInv(w: World) {
    && ClosedBy(w.log) == w.act.closing
    && (forall j :: 0 <= j < |w.log| ==> Written(w.log, j))
    && (forall j :: 0 <= j < |w.log| ==> First(w.log, j))
  }

  /** A confirmation that was used no longer describes the destination. */
  predicate Retired(w: World, i: nat)
    requires i < |w.log|
  {
    w.log[i].Published? ==>
      TouchedIn(w.log, w.log[i].name, i + 1, |w.log|) || !Matches(w.disk.dir, w.log[i].name, w.log[i].confirmed)
  }

  predicate RetiredInv(w: World) {
    forall i :: 0 <= i < |w.log| ==> Retired(w, i)
  }

  predicate Inv(w: World) {
    && MutexInv(w) && CountInv(w) && StagedInv(w) && SeenInv(w) && FactsInv(w) && LogInv(w) && RetiredInv(w)
  }

  lemma StepMutex(w: World, e: Event)
    requires MutexInv(w)
    ensures MutexInv(Apply(w, e))
  {
  }

  lemma GuardsKeeps(w: World, t: Saver, d: Deed)
    requires StagedInv(w) && Guards(w, t, d).Some?
    ensures KeepsInv(Guards(w, t, d).value)
  {
  }

  lemma GuardsKept(w: World, t: Saver, d: Deed)
    requires StagedInv(w) && Guards(w, t, d).Some?
    ensures KeptInv(Guards(w, t, d).value)
  {
  }

  lemma StagedKeeps(w: World, t: Saver, d: Deed)
    requires StagedInv(w) && t in w.jobs && Staged(w, t, d).Some?
    ensures KeepsInv(Staged(w, t, d).value)
  {
  }

  lemma StagedKept(w: World, t: Saver, d: Deed)
    requires StagedInv(w) && t in w.jobs && Staged(w, t, d).Some?
    ensures KeptInv(Staged(w, t, d).value)
  {
  }

  lemma FinalStaged(w: World, t: Saver, d: Deed)
    requires MutexInv(w) && StagedInv(w) && t in w.jobs && Final(w, t, d).Some?
    ensures StagedInv(Final(w, t, d).value)
  {
  }

  lemma FailedStaged(w: World, t: Saver)
    requires MutexInv(w) && StagedInv(w) && t in w.jobs && Failed(w, t).Some?
    ensures StagedInv(Failed(w, t).value)
  {
  }

  lemma AroundStaged(w: World, o: Outside)
    requires StagedInv(w) && Around(w, o).Some?
    ensures StagedInv(Around(w, o).value)
  {
  }

  lemma StepStaged(w: World, e: Event)
    requires MutexInv(w) && StagedInv(w)
    ensures StagedInv(Apply(w, e))
  {
    hide MutexInv, KeepsInv, KeptInv;
    if e.Other? && Next(w, e).Some? {
      AroundStaged(w, e.outside);
    } else if e.By? && Next(w, e).Some? {
      var t, d := e.saver, e.deed;
      if Guards(w, t, d).Some? {
        GuardsKeeps(w, t, d);
        GuardsKept(w, t, d);
      } else if d.Fail? {
        FailedStaged(w, t);
      } else if Staged(w, t, d).Some? {
        StagedKeeps(w, t, d);
        StagedKept(w, t, d);
      } else {
        FinalStaged(w, t, d);
      }
    }
  }

  lemma GuardsSeen(w: World, t: Saver, d: Deed)
    requires SeenInv(w) && Guards(w, t, d).Some?
    ensures SeenInv(Guards(w, t, d).value)
  {
  }

  lemma StagedSeen(w: World, t: Saver, d: Deed)
    requires StagedInv(w) && SeenInv(w) && t in w.jobs && Staged(w, t, d).Some?
    ensures SeenInv(Staged(w, t, d).value)
  {
  }

  lemma FinalSeen(w: World, t: Saver, d: Deed)
    requires SeenInv(w) && t in w.jobs && Final(w, t, d).Some?
    ensures SeenInv(Final(w, t, d).value)
  {
  }

  lemma AroundSeen(w: World, o: Outside)
    requires SeenInv(w) && Around(w, o).Some?
    ensures SeenInv(Around(w, o).value)
  {
  }

  lemma StepSeen(w: World, e: Event)
    requires StagedInv(w) && SeenInv(w)
    ensures SeenInv(Apply(w, e))
  {
    if Next(w, e).Some? {
      match e
      case Other(o) => AroundSeen(w, o);
      case By(t, d) =>
        if Guards(w, t, d).Some? {
          GuardsSeen(w, t, d);
        } else if d.Fail? {
          FailedSeen(w, t);
        } else if Staged(w, t, d).Some? {
          StagedSeen(w, t, d);
        } else {
          FinalSeen(w, t, d);
        }
    }
  }

  lemma FailedSeen(w: World, t: Saver)
    requires SeenInv(w) && t in w.jobs && Failed(w, t).Some?
    ensures SeenInv(Failed(w, t).value)
  {
  }

  // ---- Counting ----

  predicate SameCounts(a: World, b: World) {
    && a.act.active == b.act.active && a.act.pending == b.act.pending && a.jobs.Keys == b.jobs.Keys
    && (forall t :: t in a.jobs ==> (Transferring(a.jobs[t].stage) <==> Transferring(b.jobs[t].stage)))
  }

  lemma SameCount(a: World, b: World)
    requires CountInv(a) && SameCounts(a, b)
    ensures CountInv(b)
  {
    assert Transfers(a) == Transfers(b);
    assert |a.jobs| == |a.jobs.Keys| && |b.jobs| == |b.jobs.Keys|;
  }

  predicate OnlyJob(a: World, b: World, t: Saver) {
    a.jobs - {t} == b.jobs - {t}
  }

  lemma Differ(x: set<Saver>, y: set<Saver>, t: Saver)
    requires x - {t} == y - {t}
    ensures |y| == |x| + (if t in y then 1 else 0) - (if t in x then 1 else 0)
  {
    assert x == (x - {t}) + (if t in x then {t} else {});
    assert y == (y - {t}) + (if t in y then {t} else {});
  }

  lemma BusyElsewhere(a: World, b: World, t: Saver, u: Saver)
    requires OnlyJob(a, b, t) && u != t
    ensures Busy(a, u) <==> Busy(b, u)
  {
    assert u in a.jobs <==> u in a.jobs - {t};
    assert u in b.jobs <==> u in b.jobs - {t};
  }

  lemma CountedTransfers(a: World, b: World, t: Saver)
    requires OnlyJob(a, b, t)
    ensures |Transfers(b)| == |Transfers(a)| + (if Busy(b, t) then 1 else 0) - (if Busy(a, t) then 1 else 0)
  {
    var x, y := Transfers(a), Transfers(b);
    forall u | u != t
      ensures u in x <==> u in y
    {
      BusyElsewhere(a, b, t, u);
    }
    assert t in x <==> Busy(a, t);
    assert t in y <==> Busy(b, t);
    Differ(x, y, t);
  }

  lemma CountedJobs(a: map<Saver, Job>, b: map<Saver, Job>, t: Saver)
    requires a - {t} == b - {t}
    ensures |b| == |a| + (if t in b then 1 else 0) - (if t in a then 1 else 0)
  {
    assert a.Keys - {t} == (a - {t}).Keys;
    assert b.Keys - {t} == (b - {t}).Keys;
    Differ(a.Keys, b.Keys, t);
    assert |a| == |a.Keys| && |b| == |b.Keys|;
  }

  lemma GuardsOnlyJob(w: World, t: Saver, d: Deed)
    requires Guards(w, t, d).Some?
    ensures OnlyJob(w, Guards(w, t, d).value, t)
  {
  }

  lemma GuardsCount(w: World, t: Saver, d: Deed)
    requires CountInv(w) && Guards(w, t, d).Some?
    ensures CountInv(Guards(w, t, d).value)
  {
    GuardsOnlyJob(w, t, d);
    CountedTransfers(w, Guards(w, t, d).value, t);
    CountedJobs(w.jobs, Guards(w, t, d).value.jobs, t);
  }

  lemma FinalCount(w: World, t: Saver, d: Deed)
    requires t in w.jobs && Final(w, t, d).Some?
    ensures SameCounts(w, Final(w, t, d).value)
  {
  }

  lemma StagedCount(w: World, t: Saver, d: Deed)
    requires t in w.jobs && Staged(w, t, d).Some?
    ensures SameCounts(w, Staged(w, t, d).value)
  {
  }

  lemma FailedCount(w: World, t: Saver)
    requires t in w.jobs && Failed(w, t).Some? && CountInv(w)
    ensures CountInv(Failed(w, t).value)
  {
    SameCount(w, Failed(w, t).value);
  }

  lemma StepCount(w: World, e: Event)
    requires CountInv(w)
    ensures CountInv(Apply(w, e))
  {
    if Next(w, e).Some? {
      match e
      case Other(o) => SameCount(w, Apply(w, e));
      case By(t, d) =>
        if Guards(w, t, d).Some? {
          GuardsCount(w, t, d);
        } else if d.Fail? {
          FailedCount(w, t);
        } else if Staged(w, t, d).Some? {
          StagedCount(w, t, d);
          SameCount(w, Apply(w, e));
        } else {
          FinalCount(w, t, d);
          SameCount(w, Apply(w, e));
        }
    }
  }

  // ---- The log grows at its end only ----

  lemma TouchedBefore(log: seq<Note>, x: Note, n: Name, a: nat, b: nat)
    requires b <= |log|
    ensures TouchedIn(log + [x], n, a, b) <==> TouchedIn(log, n, a, b)
  {
    var more := log + [x];
    if TouchedIn(log, n, a, b) {
      var i :| a <= i < b && log[i] == Touched(n);
      assert more[i] == Touched(n);
    }
    if TouchedIn(more, n, a, b) {
      var i :| a <= i < b && more[i] == Touched(n);
      assert log[i] == Touched(n);
    }
  }

  lemma TouchedAfter(log: seq<Note>, x: Note, n: Name, a: nat)
    requires a <= |log|
    ensures TouchedIn(log + [x], n, a, |log| + 1) <==> TouchedIn(log, n, a, |log|) || x == Touched(n)
  {
    var more := log + [x];
    TouchedBefore(log, x, n, a, |log|);
    assert more[|log|] == x;
  }

  lemma TouchedWider(log: seq<Note>, n: Name, a: nat, b: nat, c: nat)
    requires a <= b && c <= |log| && TouchedIn(log, n, b, c)
    ensures TouchedIn(log, n, a, c)
  {
  }

  predicate LogGood(log: seq<Note>) {
    && (forall j :: 0 <= j < |log| ==> Written(log, j))
    && (forall j :: 0 <= j < |log| ==> First(log, j))
  }

  lemma WrittenBefore(log: seq<Note>, x: Note, j: nat)
    requires j < |log| && Written(log, j)
    ensures Written(log + [x], j)
  {
    var more := log + [x];
    assert more[j] == log[j] && more[..j] == log[..j];
    if log[j].Published? {
      TouchedBefore(log, x, log[j].name, log[j].mark, j);
    }
  }

  lemma FirstBefore(log: seq<Note>, x: Note, j: nat)
    requires j < |log| && First(log, j)
    ensures First(log + [x], j)
  {
    var more := log + [x];
    assert more[j] == log[j];
    if log[j].Published? {
      forall i | 0 <= i < j && more[i].Published? && more[i].name == more[j].name && more[i].confirmed == more[j].confirmed
        ensures TouchedIn(more, more[j].name, i + 1, j)
      {
        assert log[i].Published?;
        TouchedBefore(log, x, log[j].name, i + 1, j);
      }
    }
  }

  lemma AppendOther(log: seq<Note>, x: Note)
    requires LogGood(log) && !x.Published?
    ensures LogGood(log + [x])
  {
    forall j | 0 <= j < |log| + 1
      ensures Written(log + [x], j) && First(log + [x], j)
    {
      if j < |log| {
        WrittenBefore(log, x, j);
        FirstBefore(log, x, j);
      }
    }
  }

  lemma AppendPublished(log: seq<Note>, x: Note)
    requires LogGood(log) && x.Published? && Sound(x, log, |log|) && !ClosedBy(log)
    requires forall i :: 0 <= i < |log| && log[i].Published? && log[i].name == x.name && log[i].confirmed == x.confirmed ==>
               TouchedIn(log, x.name, i + 1, |log|)
    ensures LogGood(log + [x])
  {
    var more := log + [x];
    forall j | 0 <= j < |more|
      ensures Written(more, j)
    {
      if j < |log| {
        WrittenBefore(log, x, j);
      } else {
        assert more[..j] == log;
        TouchedBefore(log, x, x.name, x.mark, j);
      }
    }
    forall j | 0 <= j < |more|
      ensures First(more, j)
    {
      if j < |log| {
        FirstBefore(log, x, j);
      } else {
        forall i | 0 <= i < j && more[i].Published? && more[i].name == x.name && more[i].confirmed == x.confirmed
          ensures TouchedIn(more, x.name, i + 1, j)
        {
          assert log[i].Published?;
          TouchedBefore(log, x, x.name, i + 1, j);
        }
      }
    }
  }

  lemma ClosedByLast(log: seq<Note>, x: Note)
    ensures ClosedBy(log + [x]) == if x.Closed? then true else if x.Reopened? then false else ClosedBy(log)
  {
    assert (log + [x])[..|log|] == log;
  }

  // ---- What the mutex holder knows ----

  lemma OthersFacts(w: World, after: World, u: Saver)
    requires u in w.jobs && Facts(w, w.jobs[u])
    requires after.log == w.log && after.disk.dir == w.disk.dir
    requires after.act.sources == w.act.sources && after.act.aliases == w.act.aliases
    ensures Facts(after, w.jobs[u])
  {
  }

  lemma OwnFacts(w: World, t: Saver, d: Deed)
    requires t in w.jobs && Facts(w, w.jobs[t]) && Final(w, t, d).Some? && !d.Publish?
    ensures Facts(Final(w, t, d).value, Final(w, t, d).value.jobs[t])
  {
  }

  lemma TouchFacts(w: World, n: Name, entry: Option<Entry>, u: Saver)
    requires u in w.jobs && Facts(w, w.jobs[u]) && Around(w, Touch(n, entry)).Some?
    ensures Facts(Around(w, Touch(n, entry)).value, w.jobs[u])
  {
    var job := w.jobs[u];
    if job.stage.Locked? && !job.stage.part.Entered? {
      TouchedAfter(w.log, Touched(n), job.name, job.stage.part.mark);
    }
  }

  /** A step that leaves the log, the entries and the ledgers alone, and the mutex to its holder. */
  predicate Silent(w: World, after: World) {
    && after.log == w.log && after.disk.dir == w.disk.dir && after.act.closing == w.act.closing
    && after.act.sources == w.act.sources && after.act.aliases == w.act.aliases
  }

  lemma StagedSilent(w: World, t: Saver, d: Deed)
    requires t in w.jobs && Staged(w, t, d).Some?
    ensures var after := Staged(w, t, d).value;
            Silent(w, after) && after.jobs == w.jobs[t := after.jobs[t]] && !after.jobs[t].stage.Locked?
  {
  }

  lemma FailedSilent(w: World, t: Saver)
    requires t in w.jobs && Failed(w, t).Some?
    ensures var after := Failed(w, t).value;
            Silent(w, after) && after.jobs == w.jobs[t := after.jobs[t]] && !after.jobs[t].stage.Locked?
  {
  }

  lemma GuardsSilent(w: World, t: Saver, d: Deed)
    requires Guards(w, t, d).Some?
    ensures var after := Guards(w, t, d).value;
            && Silent(w, after)
            && (forall u :: u in after.jobs && u != t ==> u in w.jobs && after.jobs[u] == w.jobs[u])
            && (t in after.jobs ==> !after.jobs[t].stage.Locked?)
  {
  }

  lemma FinalSilent(w: World, t: Saver, d: Deed)
    requires t in w.jobs && Final(w, t, d).Some? && !d.Publish?
    ensures var after := Final(w, t, d).value; Silent(w, after) && after.jobs == w.jobs[t := after.jobs[t]]
  {
  }

  lemma SilentFacts(w: World, after: World, t: Saver)
    requires FactsInv(w) && Silent(w, after)
    requires forall u :: u in after.jobs && u != t ==> u in w.jobs && after.jobs[u] == w.jobs[u]
    requires t in after.jobs ==> Facts(after, after.jobs[t])
    ensures FactsInv(after)
  {
    forall u | u in after.jobs
      ensures Facts(after, after.jobs[u])
    {
      if u != t {
        OthersFacts(w, after, u);
      }
    }
  }

  lemma AroundFacts(w: World, o: Outside)
    requires MutexInv(w) && FactsInv(w) && Around(w, o).Some?
    ensures FactsInv(Around(w, o).value)
  {
    var after := Around(w, o).value;
    forall u | u in after.jobs
      ensures Facts(after, after.jobs[u])
    {
      match o
      case Touch(n, entry) => TouchFacts(w, n, entry, u);
      case Move(_) => OthersFacts(w, after, u);
      case _ => assert !w.jobs[u].stage.Locked?;
    }
  }

  lemma StepFacts(w: World, e: Event)
    requires MutexInv(w) && FactsInv(w)
    ensures FactsInv(Apply(w, e))
  {
    if Next(w, e).Some? {
      match e
      case Other(o) => AroundFacts(w, o);
      case By(t, d) =>
        if Guards(w, t, d).Some? {
          GuardsSilent(w, t, d);
          SilentFacts(w, Apply(w, e), t);
        } else if d.Fail? {
          FailedSilent(w, t);
          SilentFacts(w, Apply(w, e), t);
        } else if Staged(w, t, d).Some? {
          StagedSilent(w, t, d);
          SilentFacts(w, Apply(w, e), t);
        } else if d.Publish? {
          StepMutex(w, e);
        } else {
          FinalSilent(w, t, d);
          OwnFacts(w, t, d);
          SilentFacts(w, Apply(w, e), t);
        }
    }
  }

  // ---- Publication itself ----

  function NoteOf(w: World, t: Saver, stamp: nat): (note: Note)
    requires t in w.jobs && Final(w, t, Publish(stamp)).Some?
    ensures note.Published?
  {
    Moved(w, t, stamp).log[|w.log|]
  }

  lemma PublishSound(w: World, t: Saver, stamp: nat)
    requires StagedInv(w) && FactsInv(w) && t in w.jobs && Final(w, t, Publish(stamp)).Some?
    ensures Sound(NoteOf(w, t, stamp), w.log, |w.log|)
  {
    assert Facts(w, w.jobs[t]) && Keeps(w, t);
  }

  lemma PublishFirst(w: World, t: Saver, stamp: nat, i: nat)
    requires FactsInv(w) && RetiredInv(w) && t in w.jobs && Final(w, t, Publish(stamp)).Some?
    requires i < |w.log| && w.log[i].Published? && w.log[i].name == w.jobs[t].name
    requires w.log[i].confirmed == w.jobs[t].confirmed
    ensures TouchedIn(w.log, w.jobs[t].name, i + 1, |w.log|)
  {
    assert Facts(w, w.jobs[t]) && Retired(w, i);
    var mark := w.jobs[t].stage.part.mark;
    if TouchedIn(w.log, w.jobs[t].name, mark, |w.log|) {
      TouchedWider(w.log, w.jobs[t].name, i + 1, mark, |w.log|);
    }
  }

  lemma PublishLog(w: World, t: Saver, stamp: nat)
    requires MutexInv(w) && StagedInv(w) && FactsInv(w) && LogInv(w) && RetiredInv(w)
    requires t in w.jobs && Final(w, t, Publish(stamp)).Some?
    ensures LogInv(Moved(w, t, stamp))
  {
    var note := NoteOf(w, t, stamp);
    PublishSound(w, t, stamp);
    assert w.jobs[t].stage.Locked? && w.holder == Some(t);
    forall i | 0 <= i < |w.log| && w.log[i].Published? && w.log[i].name == note.name && w.log[i].confirmed == note.confirmed
      ensures TouchedIn(w.log, note.name, i + 1, |w.log|)
    {
      PublishFirst(w, t, stamp, i);
    }
    AppendPublished(w.log, note);
    ClosedByLast(w.log, note);
  }

  lemma AroundLog(w: World, o: Outside)
    requires LogInv(w) && Around(w, o).Some?
    ensures LogInv(Around(w, o).value)
  {
    var after := Around(w, o).value;
    if after.log != w.log {
      var x := after.log[|w.log|];
      AppendOther(w.log, x);
      ClosedByLast(w.log, x);
    }
  }

  lemma StepLog(w: World, e: Event)
    requires Inv(w)
    ensures LogInv(Apply(w, e))
  {
    if Next(w, e).Some? {
      match e
      case Other(o) => AroundLog(w, o);
      case By(t, d) =>
        if Guards(w, t, d).Some? {
          GuardsSilent(w, t, d);
        } else if d.Fail? {
          FailedSilent(w, t);
        } else if Staged(w, t, d).Some? {
          StagedSilent(w, t, d);
        } else if d.Publish? {
          PublishLog(w, t, d.stamp);
        } else {
          FinalSilent(w, t, d);
        }
    }
  }

  lemma PublishRetires(w: World, t: Saver, stamp: nat)
    requires StagedInv(w) && SeenInv(w) && RetiredInv(w)
    requires t in w.jobs && Final(w, t, Publish(stamp)).Some?
    ensures RetiredInv(Moved(w, t, stamp))
  {
    var after := Moved(w, t, stamp);
    var id := w.jobs[t].stage.id;
    assert Keeps(w, t) && id in w.disk.staged && id !in w.disk.seen;
    forall i | 0 <= i < |after.log|
      ensures Retired(after, i)
    {
      if i < |w.log| && w.log[i].Published? {
        assert Retired(w, i) && Known(w, w.log[i].confirmed);
        TouchedAfter(w.log, NoteOf(w, t, stamp), w.log[i].name, i + 1);
      } else if i == |w.log| {
        assert Known(w, w.jobs[t].confirmed);
      }
    }
  }

  lemma AroundRetired(w: World, o: Outside)
    requires RetiredInv(w) && Around(w, o).Some?
    ensures RetiredInv(Around(w, o).value)
  {
    var after := Around(w, o).value;
    forall i | 0 <= i < |after.log|
      ensures Retired(after, i)
    {
      if i < |w.log| && w.log[i].Published? {
        assert after.log[i] == w.log[i] && Retired(w, i);
        if after.log != w.log {
          TouchedAfter(w.log, after.log[|w.log|], w.log[i].name, i + 1);
        }
      }
    }
  }

  lemma SilentRetired(w: World, after: World)
    requires RetiredInv(w) && Silent(w, after)
    ensures RetiredInv(after)
  {
    forall i | 0 <= i < |after.log|
      ensures Retired(after, i)
    {
      assert Retired(w, i);
    }
  }

  lemma StepRetired(w: World, e: Event)
    requires Inv(w)
    ensures RetiredInv(Apply(w, e))
  {
    if Next(w, e).Some? {
      match e
      case Other(o) => AroundRetired(w, o);
      case By(t, d) =>
        if Guards(w, t, d).Some? {
          GuardsSilent(w, t, d);
          SilentRetired(w, Apply(w, e));
        } else if d.Fail? {
          FailedSilent(w, t);
          SilentRetired(w, Apply(w, e));
        } else if Staged(w, t, d).Some? {
          StagedSilent(w, t, d);
          SilentRetired(w, Apply(w, e));
        } else if d.Publish? {
          PublishRetires(w, t, d.stamp);
        } else {
          FinalSilent(w, t, d);
          SilentRetired(w, Apply(w, e));
        }
    }
  }

  lemma StepInv(w: World, e: Event)
    requires Inv(w)
    ensures Inv(Apply(w, e))
  {
    StepMutex(w, e);
    StepCount(w, e);
    StepStaged(w, e);
    StepSeen(w, e);
    StepFacts(w, e);
    StepLog(w, e);
    StepRetired(w, e);
  }

  lemma {:induction false} RunInv(w: World, script: seq<Event>)
    requires Inv(w)
    ensures Inv(Run(w, script))
    decreases script
  {
    if script != [] {
      StepInv(w, script[0]);
      RunInv(Apply(w, script[0]), script[1..]);
    }
  }

  // ---- What holds of every run ----

  /** Of two publications confirmed against the same destination, another program restored it in between. */
  lemma OneConfirmationOnePublication(script: seq<Event>, i: nat, j: nat)
    requires var log := Run(EMPTY, script).log;
             i < j < |log| && log[i].Published? && log[j].Published?
             && log[i].name == log[j].name && log[i].confirmed == log[j].confirmed
    ensures TouchedIn(Run(EMPTY, script).log, Run(EMPTY, script).log[i].name, i + 1, j)
  {
    RunInv(EMPTY, script);
    assert First(Run(EMPTY, script).log, j);
  }

  /** A destination confirmed as new never costs an existing file, whatever other programs do meanwhile. */
  lemma NewNeverReplaces(script: seq<Event>, j: nat)
    requires j < |Run(EMPTY, script).log| && Run(EMPTY, script).log[j].Published?
    ensures var x := Run(EMPTY, script).log[j]; x.confirmed.None? ==> x.replaced.None?
  {
    RunInv(EMPTY, script);
    assert Written(Run(EMPTY, script).log, j);
  }

  /** Only the confirmed file is replaced, and never an uploaded source, unless another program moved first. */
  lemma ReplacesWhatWasConfirmed(script: seq<Event>, j: nat)
    requires j < |Run(EMPTY, script).log| && Run(EMPTY, script).log[j].Published?
    ensures var log := Run(EMPTY, script).log;
            var x := log[j];
            && x.mark <= j
            && x.name !in x.aliases
            && (TouchedIn(log, x.name, x.mark, j)
                || (if x.replaced.None? then x.confirmed.None?
                    else x.replaced.value.Regular? && x.confirmed == Some(Printed(x.replaced.value.file))
                         && x.replaced.value.file.id !in x.sources))
  {
    RunInv(EMPTY, script);
    assert Written(Run(EMPTY, script).log, j);
  }

  /** Nothing is published between a close and the next reopen. */
  lemma ClosedStays(log: seq<Note>, i: nat, j: nat)
    requires i < j <= |log| && log[i].Closed?
    requires forall k :: i < k < j ==> !log[k].Reopened?
    ensures ClosedBy(log[..j])
  {
    assert log[..j][..j - 1] == log[..j - 1];
    if j - 1 > i {
      ClosedStays(log, i, j - 1);
    }
  }

  lemma NoneWhileClosed(script: seq<Event>, i: nat, j: nat)
    requires var log := Run(EMPTY, script).log; i < j < |log| && log[i].Closed? && log[j].Published?
    ensures exists k :: i < k < j && Run(EMPTY, script).log[k].Reopened?
  {
    RunInv(EMPTY, script);
    var log := Run(EMPTY, script).log;
    assert Written(log, j);
    if forall k :: i < k < j ==> !log[k].Reopened? {
      ClosedStays(log, i, j);
    }
  }

  /** Once saving is closed and `wait` has seen no transfer, the application writes nothing in the folder. */
  predicate Quiet(w: World) {
    w.act.closing && w.act.active == 0
  }

  lemma QuietHasNoTemporary(w: World)
    requires Inv(w) && Quiet(w)
    ensures w.disk.staged == map[] && w.holder.None?
  {
    assert Transfers(w) == {};
    forall t | t in w.jobs
      ensures !Transferring(w.jobs[t].stage)
    {
      assert t !in Transfers(w);
    }
    assert w.disk.staged.Keys == {};
  }

  lemma QuietStep(w: World, e: Event)
    requires Inv(w) && Quiet(w) && e != Other(Reopen)
    ensures Quiet(Apply(w, e))
    ensures Apply(w, e).disk.dir == w.disk.dir || (e.Other? && e.outside.Touch?)
  {
    QuietHasNoTemporary(w);
    match e
    case Other(o) =>
    case By(t, d) =>
      if t in w.jobs {
        assert t !in Transfers(w);
        assert !Transferring(w.jobs[t].stage);
      }
  }

  lemma {:induction false} QuietUntilReopened(w: World, script: seq<Event>)
    requires Inv(w) && Quiet(w) && Other(Reopen) !in script
    requires forall e :: e in script && e.Other? ==> !e.outside.Touch?
    ensures Run(w, script).disk.dir == w.disk.dir && Run(w, script).disk.staged == map[]
    decreases script
  {
    if script == [] {
      QuietHasNoTemporary(w);
    } else {
      assert script[0] in script;
      QuietStep(w, script[0]);
      StepInv(w, script[0]);
      QuietUntilReopened(Apply(w, script[0]), script[1..]);
    }
  }

  /** `reopen` undoes both closings: from then on a new save is admitted. */
  lemma ReopenAdmits(w: World, t: Saver)
    requires w.holder.None? && t !in w.jobs
    ensures Next(Apply(w, Other(Reopen)), By(t, Reserve)).Some?
    ensures w.act.closing ==> Next(w, By(t, Reserve)).None?
    ensures Next(Apply(w, Other(Close)), By(t, Reserve)).None?
  {
  }

  /** `close_if_idle` succeeds only when no save is even being planned. */
  lemma IdleMeansNoSave(w: World)
    requires Inv(w) && Around(w, CloseIfIdle).Some?
    ensures w.jobs == map[] && w.disk.staged == map[]
  {
    assert |w.jobs| == |w.jobs.Keys|;
    assert w.disk.staged.Keys == {};
  }

  lemma AroundLedgers(w: World, o: Outside)
    requires Around(w, o).Some? && |w.act.sources| <= MAX_SOURCE_IDENTITIES && |w.act.aliases| <= MAX_SOURCE_ALIASES
    ensures var after := Around(w, o).value;
            && w.act.sources <= after.act.sources && w.act.aliases <= after.act.aliases
            && |after.act.sources| <= MAX_SOURCE_IDENTITIES && |after.act.aliases| <= MAX_SOURCE_ALIASES
            && (w.act.closing || w.holder.Some? ==> after.act.sources == w.act.sources && after.act.aliases == w.act.aliases)
  {
    if o.Protect? {
      if o.id in w.act.sources {
        assert w.act.sources + {o.id} == w.act.sources;
      }
      if o.alias in w.act.aliases {
        assert w.act.aliases + {o.alias} == w.act.aliases;
      }
    }
  }

  /** The two ledgers only grow, stay within their caps, and nothing is added while closing. */
  lemma LedgersOnlyGrow(w: World, e: Event)
    requires |w.act.sources| <= MAX_SOURCE_IDENTITIES && |w.act.aliases| <= MAX_SOURCE_ALIASES
    ensures var after := Apply(w, e);
            && w.act.sources <= after.act.sources && w.act.aliases <= after.act.aliases
            && |after.act.sources| <= MAX_SOURCE_IDENTITIES && |after.act.aliases| <= MAX_SOURCE_ALIASES
            && (w.act.closing || w.holder.Some? ==> after.act.sources == w.act.sources && after.act.aliases == w.act.aliases)
  {
    if Next(w, e).Some? {
      match e
      case Other(o) => AroundLedgers(w, o);
      case By(t, d) =>
        if Guards(w, t, d).Some? {
          GuardsSilent(w, t, d);
        } else if d.Fail? {
          FailedSilent(w, t);
        } else if Staged(w, t, d).Some? {
          StagedSilent(w, t, d);
        } else if !d.Publish? {
          FinalSilent(w, t, d);
        }
    }
  }
}
