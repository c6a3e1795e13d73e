/**
 The calls of native_export.rs in their source order. Other savers, the application and other programs
 may run between any two steps; a step that needs the saves mutex waits until nobody else holds it.
 */
module PublicationCalls {
  import opened Basics
  import opened Publication

  type Chunk = c: Bytes | |c| > 0 witness [0]

  /** One read of the transfer before its end. */
  datatype Read = Data(bytes: Chunk) | Broken

  datatype Result = Published | Closing | Changed | Protected | Interrupted | Overlong | Truncated | Occupied | Fault
    | Invalid | Declined

  datatype Protection = Guarded | Limit | Stopping

  function Streamed(stream: seq<Read>): Bytes {
    if stream == [] then []
    else Streamed(stream[..|stream| - 1]) + (if stream[|stream| - 1].Data? then stream[|stream| - 1].bytes else [])
  }

  /** What the transfer loop makes of the rest of a stream after `got` bytes. */
  function Transferred(stream: seq<Read>, got: nat, length: nat): Result {
    if stream == [] then if got == length then Result.Published else Truncated
    else if stream[0].Broken? then Interrupted
    else if got + |stream[0].bytes| > length then Overlong
    else Transferred(stream[1..], got + |stream[0].bytes|, length)
  }

  /** The checks before anything is written. */
  function Opened(w: World, job: Job): Result {
    if w.act.closing then Closing
    else if !w.disk.home || !Matches(w.disk.dir, job.name, job.confirmed) then Changed
    else if !Spared(w.act, w.disk.dir, job.name) then Protected
    else Result.Published
  }

  /** What a copy that nobody disturbs returns. */
  function Undisturbed(w: World, job: Job, stream: seq<Read>): Result {
    if Opened(w, job).Published? then Transferred(stream, 0, job.length) else Opened(w, job)
  }

  // ---- What a confirmation stands for ----

  /** The entry that a saver was shown in `was` is the one `dir` has: both none, or the same regular file. */
  predicate SameEntry(was: map<Name, Entry>, dir: map<Name, Entry>, name: Name) {
    if name !in was then name !in dir
    else
      && name in dir && was[name].Regular? && dir[name].Regular?
      && dir[name].file.id == was[name].file.id
      && |dir[name].file.bytes| == |was[name].file.bytes|
      && dir[name].file.stamp == was[name].file.stamp
  }

  /** The job of a saver that confirmed `name` in `shown` and then began a transfer of `length` bytes. */
  function Confirmed(shown: World, t: Saver, name: Name, length: nat): Job
    requires Next(shown, By(t, Confirm(name))).Some?
  {
    Apply(shown, By(t, Confirm(name))).jobs[t].(length := length, stage := Begun)
  }

  /** Nobody has protected the destination as an uploaded source, by its name or by its file. */
  predicate Unprotected(w: World, name: Name) {
    && name !in w.act.aliases
    && (name in w.disk.dir && w.disk.dir[name].Regular? ==> w.disk.dir[name].file.id !in w.act.sources)
  }

  /**
   A copy that nobody disturbs, in any world reached after the confirmation. It is refused as changed
   exactly if the folder has moved or the entry is not the one that was shown.
  */
  lemma ConfirmedSave(shown: World, t: Saver, name: Name, length: nat, now: World, stream: seq<Read>)
    requires Next(shown, By(t, Confirm(name))).Some?
    ensures var r := Undisturbed(now, Confirmed(shown, t, name, length), stream);
            if now.act.closing then r == Closing
            else if !now.disk.home || !SameEntry(shown.disk.dir, now.disk.dir, name) then r == Changed
            else if !Unprotected(now, name) then r == Protected
            else r.Published? <==> Whole(stream) && |Streamed(stream)| == length
  {
    TransferredIs(stream, 0, length);
    assert stream[0..] == stream && stream[..0] == [];
  }

  /** All of the stream up to `i` arrived within the promised length. */
  predicate Arrived(stream: seq<Read>, i: nat, length: nat) {
    && i <= |stream|
    && (forall j :: 0 <= j < i ==> stream[j].Data?)
    && |Streamed(stream[..i])| <= length
  }

  predicate Whole(stream: seq<Read>) {
    forall j :: 0 <= j < |stream| ==> stream[j].Data?
  }

  /** The read at `j` fails, or brings more than was promised, after everything before it has arrived. */
  predicate StopsAt(stream: seq<Read>, j: nat, length: nat, broken: bool) {
    && j < |stream| && Arrived(stream, j, length)
    && (if broken then stream[j].Broken? else stream[j].Data? && |Streamed(stream[..j])| + |stream[j].bytes| > length)
  }

  ghost predicate Verdict(stream: seq<Read>, i: nat, length: nat, r: Result) {
    && (r.Published? <==> Whole(stream) && |Streamed(stream)| == length)
    && (r.Truncated? <==> Whole(stream) && |Streamed(stream)| < length)
    && (r.Interrupted? <==> exists j :: i <= j && StopsAt(stream, j, length, true))
    && (r.Overlong? <==> exists j :: i <= j && StopsAt(stream, j, length, false))
  }

  /** The transfer loop ends at the first read that fails or does not fit, and otherwise at the end. */
  lemma {:induction false} TransferredIs(stream: seq<Read>, i: nat, length: nat)
    requires Arrived(stream, i, length)
    ensures Verdict(stream, i, length, Transferred(stream[i..], |Streamed(stream[..i])|, length))
    decreases |stream| - i
  {
    if i == |stream| {
      assert stream[..i] == stream;
    } else {
      assert stream[..i + 1][..i] == stream[..i] && stream[i..][1..] == stream[i + 1..];
      if stream[i].Data? && |Streamed(stream[..i])| + |stream[i].bytes| <= length {
        TransferredIs(stream, i + 1, length);
        Further(stream, i, length, Transferred(stream[i..], |Streamed(stream[..i])|, length));
      } else {
        StopsFirst(stream, i, length);
      }
    }
  }

  lemma Further(stream: seq<Read>, i: nat, length: nat, r: Result)
    requires i < |stream| && stream[i].Data? && |Streamed(stream[..i])| + |stream[i].bytes| <= length
    requires Verdict(stream, i + 1, length, r)
    ensures Verdict(stream, i, length, r)
  {
    assert !StopsAt(stream, i, length, true) && !StopsAt(stream, i, length, false);
  }

  /** The one place where a stream stops. */
  lemma StopsFirst(stream: seq<Read>, i: nat, length: nat)
    requires i < |stream| && Arrived(stream, i, length)
    requires stream[i].Broken? || |Streamed(stream[..i])| + |stream[i].bytes| > length
    ensures Verdict(stream, i, length, if stream[i].Broken? then Interrupted else Overlong)
  {
    assert StopsAt(stream, i, length, stream[i].Broken?);
    if stream[i].Data? {
      assert stream[..i + 1][..i] == stream[..i];
      StreamedGrows(stream, i + 1);
    }
    assert forall j :: i < j ==> !Arrived(stream, j, length);
  }

  lemma {:induction false} StreamedGrows(stream: seq<Read>, i: nat)
    requires i <= |stream|
    ensures forall j :: i <= j <= |stream| ==> |Streamed(stream[..i])| <= |Streamed(stream[..j])|
    ensures |Streamed(stream[..i])| <= |Streamed(stream)|
    decreases |stream| - i
  {
    assert stream[..|stream|] == stream;
    if i < |stream| {
      assert stream[..i + 1][..i] == stream[..i];
      StreamedGrows(stream, i + 1);
    }
  }

  predicate Calm(w: World) {
    w.holder.None?
  }

  /** Everything but the temporary files and the savers' own progress. */
  predicate Alike(a: World, b: World) {
    a.holder == b.holder && a.act == b.act && a.log == b.log && a.disk.home == b.disk.home && a.disk.dir == b.disk.dir
  }

  predicate NoneBy(log: seq<Note>, from: nat, t: Saver) {
    forall j :: from <= j < |log| && log[j].Published? ==> log[j].saver != t
  }

  lemma OthersStay(w: World, e: Event, t: Saver)
    requires MutexInv(w) && t in w.jobs && (e.By? ==> e.saver != t)
    ensures t in Apply(w, e).jobs && Apply(w, e).jobs[t] == w.jobs[t]
    ensures w.log <= Apply(w, e).log && NoneBy(Apply(w, e).log, |w.log|, t)
  {
  }

  /** The log since `from` holds exactly one publication by `t`: these bytes, under the confirmed name. */
  predicate PublishedOnce(log: seq<Note>, from: nat, t: Saver, job: Job, bytes: Bytes) {
    exists j :: && from <= j < |log| && log[j].Published? && log[j].saver == t
                && log[j].name == job.name && log[j].confirmed == job.confirmed && log[j].length == job.length
                && log[j].file.bytes == bytes
                && NoneBy(log[..j], from, t) && NoneBy(log, j + 1, t)
  }

  lemma PublishedLater(log: seq<Note>, from: nat, middle: nat, t: Saver, job: Job, bytes: Bytes)
    requires from <= middle <= |log| && NoneBy(log[..middle], from, t) && PublishedOnce(log, middle, t, job, bytes)
    ensures PublishedOnce(log, from, t, job, bytes)
  {
    var j :| && middle <= j < |log| && log[j].Published? && log[j].saver == t
             && log[j].name == job.name && log[j].confirmed == job.confirmed && log[j].length == job.length
             && log[j].file.bytes == bytes
             && NoneBy(log[..j], middle, t) && NoneBy(log, j + 1, t);
    forall k | from <= k < j && log[k].Published?
      ensures log[k].saver != t
    {
      assert k < middle ==> log[..middle][k] == log[k];
      assert log[..j][k] == log[k];
    }
  }

  predicate NoTemporary(w: World, t: Saver) {
    forall id :: id in w.disk.staged ==> w.disk.staged[id].owner != t
  }

  lemma DroppingHasNone(w: World, t: Saver)
    requires Inv(w) && t in w.jobs && w.jobs[t].stage.Dropping?
    ensures NoTemporary(w, t)
  {
    forall id | id in w.disk.staged
      ensures w.disk.staged[id].owner != t
    {
      assert Kept(w, id);
    }
  }

  predicate NewFile(before: World, after: World, name: Name, bytes: Bytes) {
    && name in after.disk.dir && after.disk.dir[name].Regular? && after.disk.dir[name].file.bytes == bytes
    && after.disk.dir - {name} == before.disk.dir - {name}
  }

  /** The saver still moves the same bytes to the same place. */
  predicate SameTransfer(a: World, b: World, t: Saver)
    requires t in a.jobs && Stages(a.jobs[t].stage) && t in b.jobs
  {
    && b.jobs[t].(stage := a.jobs[t].stage) == a.jobs[t]
    && Stages(b.jobs[t].stage) && b.jobs[t].stage.id == a.jobs[t].stage.id && b.jobs[t].stage.got == a.jobs[t].stage.got
  }

  predicate SameFolder(a: World, b: World) {
    a.disk == b.disk && a.act == b.act && a.log == b.log
  }

  /** The folder holds the streamed bytes under the confirmed name and is otherwise as before. */
  predicate NewContent(before: World, after: World, t: Saver)
    requires t in before.jobs && Stages(before.jobs[t].stage)
  {
    var job := before.jobs[t];
    && job.name in after.disk.dir && after.disk.dir[job.name].Regular?
    && after.disk.dir[job.name].file.bytes == job.stage.got && after.disk.dir[job.name].file.id == job.stage.id
    && after.disk.dir - {job.name} == before.disk.dir - {job.name}
  }

  lemma OwnTemporary(w: World, t: Saver)
    requires Inv(w) && t in w.jobs && Stages(w.jobs[t].stage)
    ensures var stage := w.jobs[t].stage;
            && stage.id in w.disk.staged && w.disk.staged[stage.id] == Temp(t, stage.got)
            && (!stage.Staging? ==> |stage.got| == w.jobs[t].length)
  {
    assert Keeps(w, t);
  }

  lemma MutexKnown(w: World)
    requires Inv(w)
    ensures MutexInv(w)
  {
  }

  /** `t` has confirmed `name` as the folder of `before` showed it, and nothing else has changed. */
  predicate ChosenFrom(before: World, after: World, t: Saver, name: Name) {
    Next(before, By(t, Confirm(name))).Some? && after == Apply(before, By(t, Confirm(name)))
  }

  /** Nothing the copy looks at has changed since the confirmation when the transfer begins. */
  lemma ChosenBegins(shown: World, chosen: World, t: Saver, name: Name, length: nat)
    requires ChosenFrom(shown, chosen, t, name) && Calm(shown) && Next(chosen, By(t, Begin(length))).Some?
    ensures var w := Apply(chosen, By(t, Begin(length)));
            && t in w.jobs && w.jobs[t] == Confirmed(shown, t, name, length) && w.disk == shown.disk
            && w.act.sources == shown.act.sources && w.act.aliases == shown.act.aliases && w.holder == shown.holder
            && w.act.closing == shown.act.closing
    ensures shown.disk.home && SameEntry(shown.disk.dir, shown.disk.dir, name) && Unprotected(shown, name)
    ensures Confirmed(shown, t, name, length).confirmed.Some? <==> name in shown.disk.dir
  {
  }

  lemma HasCounted(w: World, t: Saver)
    requires Inv(w) && t in w.jobs
    ensures w.act.pending > 0
    ensures Transferring(w.jobs[t].stage) ==> w.act.active > 0
  {
    assert t in w.jobs.Keys && |w.jobs| == |w.jobs.Keys|;
    if Transferring(w.jobs[t].stage) {
      assert t in Transfers(w);
    }
  }

  method Unused(taken: set<Id>) returns (id: Id)
    ensures id !in taken
  {
    id := 0;
    var rest := taken;
    while rest != {}
      invariant rest <= taken
      invariant forall x :: x in taken && x !in rest ==> x < id
    {
      var x: Id :| x in rest;
      rest := rest - {x};
      if id <= x {
        id := x + 1;
      }
    }
  }

  class Exports {
    var w: World

    constructor ()
      ensures w == EMPTY && Inv(w)
    {
      w := EMPTY;
    }

    /** Anything the others do before `t` runs again; nothing at all if `alone`. */
    method Others(t: Saver, alone: bool)
      requires Inv(w) && t in w.jobs
      modifies this
      ensures Inv(w) && t in w.jobs && w.jobs[t] == old(w.jobs[t])
      ensures old(w.log) <= w.log && NoneBy(w.log, |old(w.log)|, t)
      ensures alone ==> w == old(w)
    {
      hide Inv;
      var script: seq<Event> := *;
      var i := 0;
      while i < |script|
        invariant Inv(w) && t in w.jobs && w.jobs[t] == old(w.jobs[t])
        invariant old(w.log) <= w.log && NoneBy(w.log, |old(w.log)|, t)
        invariant alone ==> w == old(w)
      {
        if !alone && (script[i].By? ==> script[i].saver != t) {
          MutexKnown(w);
          OthersStay(w, script[i], t);
          StepInv(w, script[i]);
          w := Apply(w, script[i]);
        }
        i := i + 1;
      }
    }

    /** Waits for the saves mutex: whoever holds it leaves its critical section first. */
    method Await(t: Saver, alone: bool)
      requires Inv(w) && t in w.jobs && !w.jobs[t].stage.Locked?
      modifies this
      ensures Inv(w) && t in w.jobs && w.jobs[t] == old(w.jobs[t])
      ensures old(w.log) <= w.log && NoneBy(w.log, |old(w.log)|, t)
      ensures w.holder.None?
      ensures alone && old(w.holder).None? ==> w == old(w)
      ensures alone ==> w.disk.dir == old(w.disk.dir) && w.log == old(w.log) && w.act == old(w.act)
    {
      hide Inv;
      Others(t, alone);
      MutexKnown(w);
      if w.holder.Some? {
        var leave := By(w.holder.value, Fail);
        OthersStay(w, leave, t);
        StepInv(w, leave);
        w := Apply(w, leave);
      }
    }

    method Do(t: Saver, d: Deed)
      requires Inv(w) && Next(w, By(t, d)).Some?
      modifies this
      ensures Inv(w) && w == Apply(old(w), By(t, d))
    {
      StepInv(w, By(t, d));
      w := Apply(w, By(t, d));
    }

    /** `protect_source`: the caps are checked before closing, and an error adds nothing. */
    method ProtectSource(id: Id, alias: Name) returns (r: Protection)
      requires Inv(w) && w.holder.None?
      modifies this
      ensures Inv(w)
      ensures r.Limit? <==> || (id !in old(w.act.sources) && |old(w.act.sources)| >= MAX_SOURCE_IDENTITIES)
                            || (alias !in old(w.act.aliases) && |old(w.act.aliases)| >= MAX_SOURCE_ALIASES)
      ensures r.Stopping? ==> old(w.act.closing)
      ensures r.Guarded? ==> !old(w.act.closing)
      ensures w == if r.Guarded? then old(w).(act := old(w.act).(sources := old(w.act.sources) + {id},
                                                                 aliases := old(w.act.aliases) + {alias}))
                   else old(w)
      ensures r.Guarded? ==> id in w.act.sources && alias in w.act.aliases
    {
      hide Inv;
      if Full(w.act, id, alias) {
        return Limit;
      }
      if w.act.closing {
        return Stopping;
      }
      StepInv(w, Other(Protect(id, alias)));
      w := Apply(w, Other(Protect(id, alias)));
      return Protection.Guarded;
    }

    /** `close_if_idle`: refuses while any save is planned or running, and otherwise leaves none behind. */
    method CloseIdle() returns (ok: bool)
      requires Inv(w) && w.holder.None?
      modifies this
      ensures Inv(w)
      ensures ok <==> !old(w.act.closing) && old(w.jobs) == map[]
      ensures w == if ok then old(w).(act := old(w.act).(closing := true), log := old(w.log) + [Closed]) else old(w)
      ensures ok ==> Quiet(w)
    {
      assert |w.jobs| == |w.jobs.Keys|;
      if w.act.closing || w.act.active != 0 || w.act.pending != 0 {
        return false;
      }
      StepInv(w, Other(CloseIfIdle));
      w := Apply(w, Other(CloseIfIdle));
      return true;
    }

    /** `copy` as far as its new temporary file. */
    method Open(t: Saver, alone: bool, steady: bool) returns (r: Result)
      requires Inv(w) && t in w.jobs && w.jobs[t].stage.Begun?
      modifies this
      ensures Inv(w) && t in w.jobs && old(w.log) <= w.log && NoneBy(w.log, |old(w.log)|, t)
      ensures exists s :: w.jobs[t] == old(w.jobs[t]).(stage := s)
      ensures if r.Published? then w.jobs[t].stage.Staging? && w.jobs[t].stage.got == []
              else w.jobs[t].stage.Begun? || w.jobs[t].stage.Checked? || w.jobs[t].stage.Vetted?
      ensures r.Published? || r.Closing? || r.Changed? || r.Protected? || (r.Fault? && !steady)
      ensures alone && steady && Calm(old(w)) ==>
                && r == Opened(old(w), old(w.jobs[t])) && Alike(old(w), w)
    {
      hide Inv;
      Await(t, alone);
      if w.act.closing {
        return Closing;
      }
      Do(t, Check);
      Await(t, alone);
      if !w.disk.home || !Matches(w.disk.dir, w.jobs[t].name, w.jobs[t].confirmed) {
        return Changed;
      }
      if !Spared(w.act, w.disk.dir, w.jobs[t].name) {
        return Protected;
      }
      Do(t, Vet);
      var fault: bool := *;
      if fault && !steady {
        return Fault;
      }
      var id := Unused(w.disk.seen + w.disk.staged.Keys);
      Do(t, Create(id));
      return Result.Published;
    }

    /** One round of the transfer loop after its read. */
    method Write(t: Saver, bytes: Chunk)
      requires Inv(w) && t in w.jobs && w.jobs[t].stage.Staging? && w.holder.None? && !w.act.closing
      requires |w.jobs[t].stage.got| + |bytes| <= w.jobs[t].length
      modifies this
      ensures Inv(w) && t in w.jobs && w.log == old(w.log) && Alike(old(w), w)
      ensures w.jobs[t] == old(w.jobs[t]).(stage := Staging(old(w.jobs[t].stage.id), old(w.jobs[t].stage.got) + bytes))
    {
      Do(t, Receive(bytes));
    }

    /** The transfer loop: the whole stream, and exactly the promised length, or an error. */
    method Transfer(t: Saver, stream: seq<Read>, alone: bool, steady: bool) returns (r: Result)
      requires Inv(w) && t in w.jobs && w.jobs[t].stage.Staging? && w.jobs[t].stage.got == []
      modifies this
      ensures Inv(w) && t in w.jobs && old(w.log) <= w.log && NoneBy(w.log, |old(w.log)|, t)
      ensures exists got :: w.jobs[t] == old(w.jobs[t]).(stage := Staging(old(w.jobs[t].stage.id), got))
      ensures r.Published? ==> w.jobs[t].stage.got == Streamed(stream) && |Streamed(stream)| == w.jobs[t].length
      ensures r.Fault? ==> !steady
      ensures alone && steady && Calm(old(w)) && !old(w.act.closing) ==>
                r == Transferred(stream, 0, old(w.jobs[t].length)) && Alike(old(w), w)
    {
      hide Inv;
      var job := w.jobs[t];
      var i := 0;
      while true
        invariant Inv(w) && t in w.jobs && 0 <= i <= |stream|
        invariant w.jobs[t] == job.(stage := Staging(job.stage.id, Streamed(stream[..i])))
        invariant old(w.log) <= w.log && NoneBy(w.log, |old(w.log)|, t)
        invariant alone && steady && Calm(old(w)) && !old(w.act.closing) ==>
                    && Transferred(stream, 0, job.length) == Transferred(stream[i..], |Streamed(stream[..i])|, job.length)
                    && Alike(old(w), w)
        decreases |stream| - i
      {
        Await(t, alone);
        if w.act.closing {
          return Closing;
        }
        if i == |stream| {
          break;
        }
        if stream[i].Broken? {
          return Interrupted;
        }
        assert stream[..i + 1][..i] == stream[..i];
        assert stream[i..][1..] == stream[i + 1..];
        if |w.jobs[t].stage.got| + |stream[i].bytes| > job.length {
          return Overlong;
        }
        var fault: bool := *;
        if fault && !steady {
          return Fault;
        }
        Write(t, stream[i].bytes);
        i := i + 1;
      }
      assert stream[..i] == stream;
      if |w.jobs[t].stage.got| != job.length {
        return Truncated;
      }
      return Result.Published;
    }

    /** `sync_all`, and closing the written file. */
    method Flush(t: Saver, steady: bool) returns (r: Result)
      requires Inv(w) && t in w.jobs && w.jobs[t].stage.Staging? && |w.jobs[t].stage.got| == w.jobs[t].length
      modifies this
      ensures Inv(w) && t in w.jobs && Alike(old(w), w)
      ensures if r.Published?
              then w.jobs[t] == old(w.jobs[t]).(stage := Synced(old(w.jobs[t].stage.id), old(w.jobs[t].stage.got)))
              else r.Fault? && !steady && w == old(w)
    {
      hide Inv;
      var fault: bool := *;
      if fault && !steady {
        return Fault;
      }
      Do(t, Sync);
      return Result.Published;
    }

    /** Takes the mutex and looks at the destination again. */
    method Relook(t: Saver, alone: bool) returns (r: Result)
      requires Inv(w) && t in w.jobs && w.jobs[t].stage.Synced?
      modifies this
      ensures Inv(w) && t in w.jobs && old(w.log) <= w.log && NoneBy(w.log, |old(w.log)|, t)
      ensures SameTransfer(old(w), w, t)
      ensures if r.Published? then w.jobs[t].stage.Locked? && w.jobs[t].stage.part.Inspected?
              else w.jobs[t].stage.Locked? || w.jobs[t].stage.Synced?
      ensures r.Published? || r.Closing? || r.Changed?
      ensures alone && Calm(old(w)) ==>
                && r == (if old(w.act.closing) then Closing
                         else if !old(w.disk.home) || !Matches(old(w.disk.dir), old(w.jobs[t].name), old(w.jobs[t].confirmed))
                              then Changed else Result.Published)
                && SameFolder(old(w), w)
    {
      hide Inv;
      Await(t, alone);
      if w.act.closing {
        return Closing;
      }
      Do(t, Enter);
      Others(t, alone);
      if !w.disk.home || !Matches(w.disk.dir, w.jobs[t].name, w.jobs[t].confirmed) {
        return Changed;
      }
      Do(t, Inspect);
      return Result.Published;
    }

    /** Repeats every check under the mutex: closing, destination, protection, temporary file. */
    method Recheck(t: Saver, alone: bool) returns (r: Result)
      requires Inv(w) && t in w.jobs && w.jobs[t].stage.Synced?
      modifies this
      ensures Inv(w) && t in w.jobs && old(w.log) <= w.log && NoneBy(w.log, |old(w.log)|, t)
      ensures SameTransfer(old(w), w, t)
      ensures if r.Published? then w.jobs[t].stage.Locked? && w.jobs[t].stage.part.Verified?
              else w.jobs[t].stage.Locked? || w.jobs[t].stage.Synced?
      ensures r.Published? || r.Closing? || r.Changed? || r.Protected?
      ensures alone && Calm(old(w)) ==> r == Opened(old(w), old(w.jobs[t])) && SameFolder(old(w), w)
    {
      hide Inv;
      r := Relook(t, alone);
      if !r.Published? {
        return;
      }
      Others(t, alone);
      if !Spared(w.act, w.disk.dir, w.jobs[t].name) {
        return Protected;
      }
      Do(t, Guard);
      Others(t, alone);
      OwnTemporary(w, t);
      Do(t, Verify);
    }

    /** The one namespace change: a no-replace move for a new name, a rename over a confirmed one. */
    method Move(t: Saver, alone: bool, steady: bool) returns (r: Result)
      requires Inv(w) && t in w.jobs && w.jobs[t].stage.Locked? && w.jobs[t].stage.part.Verified?
      modifies this
      ensures Inv(w) && t in w.jobs && old(w.log) <= w.log
      ensures if r.Published? then w.jobs[t] == old(w.jobs[t]).(stage := Cleaning(old(w.jobs[t].stage.id)))
                && PublishedOnce(w.log, |old(w.log)|, t, old(w.jobs[t]), old(w.jobs[t].stage.got))
              else w.jobs[t] == old(w.jobs[t]) && NoneBy(w.log, |old(w.log)|, t)
      ensures r.Published? || (r.Fault? && !steady)
              || (r.Occupied? && (alone ==> !Matches(old(w.disk.dir), old(w.jobs[t].name), old(w.jobs[t].confirmed))))
      ensures alone && r.Published? ==> NewContent(old(w), w, t)
    {
      hide Inv;
      Others(t, alone);
      OwnTemporary(w, t);
      if w.jobs[t].confirmed.None? && w.jobs[t].name in w.disk.dir {
        return Occupied;
      }
      var fault: bool := *;
      if fault && !steady {
        return Fault;
      }
      var stamp: nat := *;
      ghost var before := w.log;
      Do(t, Publish(stamp));
      assert w.log[|before|].Published?;
      assert w.log[..|before|] == before;
      return Result.Published;
    }

    /** The critical section of a copy. */
    method Finish(t: Saver, alone: bool, steady: bool) returns (r: Result)
      requires Inv(w) && t in w.jobs && w.jobs[t].stage.Synced?
      modifies this
      ensures Inv(w) && t in w.jobs && old(w.log) <= w.log
      ensures exists s :: w.jobs[t] == old(w.jobs[t]).(stage := s)
      ensures if r.Published? then w.jobs[t].stage.Cleaning?
                && PublishedOnce(w.log, |old(w.log)|, t, old(w.jobs[t]), old(w.jobs[t].stage.got))
              else NoneBy(w.log, |old(w.log)|, t) && (w.jobs[t].stage.Locked? || w.jobs[t].stage.Synced?)
      ensures r.Published? || r.Closing? || r.Changed? || r.Protected? || (r.Occupied? && !(alone && Calm(old(w)))) || (r.Fault? && !steady)
      ensures alone && steady && Calm(old(w)) ==> r == Opened(old(w), old(w.jobs[t]))
      ensures alone && r.Published? && Calm(old(w)) ==> NewContent(old(w), w, t)
    {
      hide Inv;
      r := Recheck(t, alone);
      if r.Published? {
        ghost var locked := w;
        r := Move(t, alone, steady);
        if r.Published? {
          PublishedLater(w.log, |old(w.log)|, |locked.log|, t, old(w.jobs[t]), old(w.jobs[t].stage.got));
        }
      }
    }

    /** The guards of `copy` drop: the mutex if held, then the temporary file. */
    method Release(t: Saver)
      requires Inv(w) && t in w.jobs && Transferring(w.jobs[t].stage) && !w.jobs[t].stage.Dropping?
      modifies this
      ensures Inv(w) && t in w.jobs && w.jobs[t] == old(w.jobs[t]).(stage := Dropping)
      ensures w.log == old(w.log) && w.act == old(w.act) && w.disk.dir == old(w.disk.dir)
      ensures NoTemporary(w, t)
    {
      hide Inv;
      if !w.jobs[t].stage.Cleaning? {
        Do(t, Fail);
      }
      if w.jobs[t].stage.Cleaning? {
        Do(t, Clean);
      }
      DroppingHasNone(w, t);
    }

    /** `copy`: staged write, second validation, publication, and the guards that drop on every return. */
    method Copy(t: Saver, stream: seq<Read>, alone: bool, steady: bool) returns (r: Result)
      requires Inv(w) && t in w.jobs && w.jobs[t].stage.Begun?
      modifies this
      ensures Inv(w) && t in w.jobs && w.jobs[t] == old(w.jobs[t]).(stage := Dropping)
      ensures old(w.log) <= w.log && NoTemporary(w, t)
      ensures if r.Published?
              then |Streamed(stream)| == old(w.jobs[t].length)
                   && PublishedOnce(w.log, |old(w.log)|, t, old(w.jobs[t]), Streamed(stream))
              else NoneBy(w.log, |old(w.log)|, t)
      ensures r.Fault? ==> !steady
      ensures alone && steady && Calm(old(w)) ==>
                && r == Undisturbed(old(w), old(w.jobs[t]), stream)
                && (if r.Published? then NewFile(old(w), w, old(w.jobs[t].name), Streamed(stream))
                    else w.disk.dir == old(w.disk.dir))
    {
      hide Inv;
      r := Open(t, alone, steady);
      if r.Published? {
        r := Transfer(t, stream, alone, steady);
        if r.Published? {
          r := Flush(t, steady);
          if r.Published? {
            ghost var flushed := w;
            r := Finish(t, alone, steady);
            if r.Published? {
              PublishedLater(w.log, |old(w.log)|, |flushed.log|, t, flushed.jobs[t], Streamed(stream));
            }
          }
        }
      }
      Release(t);
    }

    /** The destination is chosen and looked at: a folder that is there, a spared name, no link or directory. */
    method Choose(t: Saver, name: Name, alone: bool) returns (r: Result)
      requires Inv(w) && t in w.jobs && w.jobs[t].stage.Choosing?
      modifies this
      ensures Inv(w) && t in w.jobs && old(w.log) <= w.log && NoneBy(w.log, |old(w.log)|, t)
      ensures if r.Published? then w.jobs[t].stage.Chosen? && w.jobs[t].name == name else w.jobs[t] == old(w.jobs[t])
      ensures r.Published? || r.Changed? || r.Protected? || r.Invalid?
      ensures alone && Calm(old(w)) ==>
                && (r.Published? <==> old(w.disk.home) && Unprotected(old(w), name)
                                      && (name in old(w.disk.dir) ==> old(w.disk.dir)[name].Regular?))
                && (if r.Published? then ChosenFrom(old(w), w, t, name) else w == old(w))
    {
      hide Inv;
      Await(t, alone);
      if !Spared(w.act, w.disk.dir, name) {
        return Protected;
      }
      if name in w.disk.dir && w.disk.dir[name].Odd? {
        return Invalid;
      }
      if !w.disk.home {
        return Changed;
      }
      Do(t, Confirm(name));
      return Result.Published;
    }

    /** Drops what an abandoned save still holds, and then its place. */
    method Leave(t: Saver, alone: bool)
      requires Inv(w) && t in w.jobs && (w.jobs[t].stage.Choosing? || w.jobs[t].stage.Chosen? || w.jobs[t].stage.Dropping?)
      modifies this
      ensures Inv(w) && t !in w.jobs && old(w.log) <= w.log && NoneBy(w.log, |old(w.log)|, t)
      ensures alone ==> w.disk.dir == old(w.disk.dir) && w.log == old(w.log)
    {
      hide Inv;
      if w.jobs[t].stage.Dropping? {
        Await(t, alone);
        HasCounted(w, t);
        Do(t, EndActive);
      } else {
        Do(t, Fail);
      }
      Await(t, alone);
      HasCounted(w, t);
      Do(t, EndPending);
    }

    /** The copy of a chosen destination, unless an existing file may not be replaced. */
    method Fill(t: Saver, ghost shown: World, replace: bool, length: nat, stream: seq<Read>, alone: bool, steady: bool)
      returns (r: Result)
      requires Inv(w) && t in w.jobs && w.jobs[t].stage.Chosen?
      modifies this
      ensures Inv(w) && t in w.jobs && (w.jobs[t].stage.Chosen? || w.jobs[t].stage.Dropping?)
      ensures old(w.log) <= w.log && (!r.Published? ==> NoneBy(w.log, |old(w.log)|, t))
      ensures alone && steady && !shown.act.closing && Calm(shown) && ChosenFrom(shown, old(w), t, old(w.jobs[t].name)) ==>
                && (r.Published? <==> (old(w.jobs[t].name) in shown.disk.dir ==> replace)
                                      && Whole(stream) && |Streamed(stream)| == length)
                && (if r.Published? then NewFile(shown, w, old(w.jobs[t].name), Streamed(stream))
                    else w.disk.dir == shown.disk.dir)
    {
      hide Inv;
      ghost var chosen := w;
      Await(t, alone);
      if w.jobs[t].confirmed.Some? && !replace {
        return Declined;
      }
      if w.act.closing {
        return Closing;
      }
      ghost var asked := w;
      Do(t, Begin(length));
      if alone && Calm(shown) && ChosenFrom(shown, chosen, t, chosen.jobs[t].name) {
        ChosenBegins(shown, asked, t, chosen.jobs[t].name, length);
        ConfirmedSave(shown, t, chosen.jobs[t].name, length, w, stream);
      }
      hide Undisturbed, Apply, Next, SameEntry, Unprotected;
      r := Copy(t, stream, alone, steady);
    }

    /**
     A whole save: reserve, choose and confirm, begin, copy, and the guards back. With nobody in between it
     is published exactly if saving is open, the destination can be used, an existing file may be replaced,
     and the stream is unbroken and of the promised length.
    */
    method Save(t: Saver, name: Name, replace: bool, length: nat, stream: seq<Read>, alone: bool, steady: bool)
      returns (r: Result)
      requires Inv(w) && t !in w.jobs && w.holder.None?
      modifies this
      ensures Inv(w) && t !in w.jobs && old(w.log) <= w.log
      ensures !r.Published? ==> NoneBy(w.log, |old(w.log)|, t)
      ensures alone && steady ==>
                (r.Published? <==> && !old(w.act.closing) && old(w.disk.home) && Unprotected(old(w), name)
                                   && (name in old(w.disk.dir) ==> old(w.disk.dir)[name].Regular? && replace)
                                   && Whole(stream) && |Streamed(stream)| == length)
      ensures alone && steady ==>
                if r.Published? then NewFile(old(w), w, name, Streamed(stream)) else w.disk.dir == old(w.disk.dir)
    {
      hide Inv;
      if w.act.closing {
        return Closing;
      }
      Do(t, Reserve);
      ghost var shown := w;
      r := Choose(t, name, alone);
      if r.Published? {
        r := Fill(t, shown, replace, length, stream, alone, steady);
      }
      Leave(t, alone);
    }
  }
}
