/**
 The BabelDOC plugin update (babeldoc_plugin.py) and the admission gate it closes (updates.py). Each
 method is one coroutine; `Suspend` is a point where it gives up control, so that the watcher, a
 disable request, application shutdown or another gate owner may run before it continues. With `quiet`
 nobody else acts at such a point; with `fine` every await resumes and every answer is good.
 */
module PluginUpdate {
  import opened Basics

  type Identity = nat
  type Version = nat

  datatype Phase = Disabled | Checking | Runtime | Models | Unpacking | Starting | Stopping | Ready | Error

  /** plugin.json */
  datatype Saved = Saved(enabled: bool, installation: Option<Identity>, version: Option<Version>)

  /** The job gate: closed, and if so whether the plugin or a native update closed it. */
  datatype Gate = Gate(closed: bool, plugin: bool)

  /** How an await ends: with its value, cancelled, an HTTP refusal, or any other exception. */
  datatype Wake = Resumed | Cancelled | Http | Failed

  datatype Failure = NoFailure | UpdateBusy | UpdateFailed | RollbackFailed

  /** Writing plugin.json raises nothing but operating system errors: what it writes is a flag and two short strings. */
  datatype Saving = Stored | OsError

  class Plugin {
    var enabled: bool
    var closing: bool
    var installation: Option<Identity>
    var version: Option<Version>
    var phase: Phase
    var connection: Option<Identity>   // the installation whose service answers
    var child: Option<Identity>        // the installation whose process is owned
    var task: bool                     // _task is set
    var watched: bool                  // ... and that watcher is still running
    var updating: bool
    var updateError: Failure
    var saved: Saved
    var gate: Gate
    ghost var native: bool             // a native update has closed the gate and not reopened it

    /** Ready means a service to talk to, which a watcher guards; the gate is closed by those who closed it. */
    ghost predicate Sound()
      reads this
    {
      && (phase.Ready? ==> connection.Some? && task && watched)
      && (connection.Some? ==> child == connection)
      && (gate.closed <==> native || Owned()) && !(native && Owned())
    }

    /** A restart would load what is in memory. */
    ghost predicate Recorded()
      reads this
    {
      saved.installation == installation && saved.version == version
    }

    /** The service that answers, if any, is the recorded installation's, and its watcher is running. */
    ghost predicate Serving()
      reads this
    {
      child == connection && watched == connection.Some? && (watched ==> task) && (connection.Some? ==> connection == installation)
    }

    ghost predicate Owned()
      reads this
    {
      gate == Gate(true, true)
    }

    /** disable() up to the failure of its save, and stop() up to its first await. */
    method OtherRequests()
      modifies this`enabled, this`closing, this`saved
      ensures (enabled ==> old(enabled)) && (old(closing) ==> closing)
      ensures old(Recorded()) ==> Recorded()
    {
      var disables: bool, saves: bool, closes: bool := *, *, *;
      if disables {
        enabled := false;
        if saves {
          saved := Saved(false, installation, version);
        }
      }
      if closes {
        closing := true;
      }
    }

    /** _watch, when the child exits during an update. */
    method ChildExits()
      requires Sound()
      modifies this`phase, this`connection, this`child, this`watched
      ensures Sound() && (old(Serving()) ==> Serving())
      ensures phase == old(phase) || (phase.Error? && old(phase).Ready?)
      ensures (watched == old(watched) && phase == old(phase) && connection == old(connection) && child == old(child))
              || (old(watched) && !watched && connection.None? && child.None?)
    {
      var dies: bool := *;
      if dies && watched {
        if phase.Ready? {
          phase := Error;
        }
        connection, child, watched := None, None, false;
      }
    }

    /** prepare() and cancel() of a native update refuse a gate that the plugin closed. */
    method NativeUpdate()
      requires Sound()
      modifies this`gate, this`native
      ensures Sound() && (old(Owned()) <==> Owned())
    {
      var closes: bool := *;
      if gate != Gate(true, true) {
        gate := if closes then Gate(true, false) else Gate(false, gate.plugin);
        native := closes;
      }
    }

    /** Anything else that may run at an await during an update. `owned`: a task nobody can cancel. */
    method Suspend(owned: bool, quiet: bool, fine: bool) returns (wake: Wake)
      requires Sound() && updating
      modifies this`enabled, this`closing, this`phase, this`connection, this`child, this`watched, this`saved, this`gate, this`native
      ensures Sound() && (old(Serving()) ==> Serving())
      ensures (enabled ==> old(enabled)) && (old(closing) ==> closing)
      ensures old(Recorded()) ==> Recorded()
      ensures old(Owned()) <==> Owned()
      ensures phase == old(phase) || (phase.Error? && old(phase).Ready?)
      ensures (watched == old(watched) && phase == old(phase) && connection == old(connection) && child == old(child))
              || (old(watched) && !watched && connection.None? && child.None?)
      ensures !wake.Http? && (owned ==> !wake.Cancelled?)
      ensures quiet ==> unchanged(this)
      ensures fine ==> wake.Resumed?
    {
      if !quiet {
        OtherRequests();
        ChildExits();
        NativeUpdate();
      }
      wake := *;
      if wake.Http? || (owned && wake.Cancelled?) {
        wake := Failed;
      }
      if fine {
        wake := Resumed;
      }
    }

    // ---- The gate ----

    /** prepare(allow_plugin_activity=True): a tentative closing never survives a failure. */
    method Prepare(quiet: bool, fine: bool) returns (wake: Wake)
      requires Sound() && updating && !Owned()
      modifies this`enabled, this`closing, this`phase, this`connection, this`child, this`watched, this`saved, this`gate, this`native
      ensures Sound() && (enabled ==> old(enabled)) && (old(closing) ==> closing)
      ensures old(Recorded()) ==> Recorded()
      ensures wake.Resumed? <==> Owned()
      ensures old(Serving()) ==> Serving()
      ensures phase == old(phase) || (phase.Error? && old(phase).Ready?)
      ensures quiet && fine ==> if old(gate.closed) then wake.Http? else wake.Resumed?
      ensures quiet ==> enabled == old(enabled) && closing == old(closing) && connection == old(connection)
    {
      wake := Suspend(false, quiet, fine);
      if !wake.Resumed? {
        return;
      }
      var accepting: bool := *;
      if (!accepting && !fine) || gate.closed {
        return Http;
      }
      gate := Gate(true, true);
      var inflight: bool := *;
      if inflight && !fine {
        gate := gate.(closed := false);
        return Http;
      }
      wake := Suspend(false, quiet, fine);
      var busy: bool := *;
      if wake.Resumed? && busy && !fine {
        wake := Http;
      }
      if !wake.Resumed? {
        gate := gate.(closed := false);
      }
    }

    /** cancel(allow_plugin_activity=True), from a task that nobody can cancel. */
    method Reopen(quiet: bool) returns (wake: Wake)
      requires Sound() && updating
      modifies this`enabled, this`closing, this`phase, this`connection, this`child, this`watched, this`saved, this`gate, this`native
      ensures Sound() && !Owned() && (old(child == connection) ==> child == connection)
      ensures old(Recorded()) ==> Recorded()
      ensures old(Serving()) ==> Serving()
      ensures old(Owned()) ==> wake.Resumed? && !gate.closed
      ensures connection == old(connection) || connection.None?
      ensures phase == old(phase) || (phase.Error? && old(phase).Ready?)
      ensures (enabled ==> old(enabled)) && (old(closing) ==> closing)
      ensures quiet ==> enabled == old(enabled) && closing == old(closing)
                        && phase == old(phase) && connection == old(connection)
    {
      var _ := Suspend(true, quiet, true);
      if gate.closed && !gate.plugin {
        return Http;
      }
      gate := gate.(closed := false);
      return Resumed;
    }

    // ---- Processes ----

    method StopChild(owned: bool, quiet: bool, fine: bool) returns (wake: Wake)
      requires Sound() && updating && !watched && !phase.Ready?
      modifies this`enabled, this`closing, this`phase, this`connection, this`child, this`watched, this`saved, this`gate, this`native
      ensures Sound() && !watched && phase == old(phase)
      ensures old(Recorded()) ==> Recorded()
      ensures old(Owned()) <==> Owned()
      ensures connection.None? && child.None?
      ensures (enabled ==> old(enabled)) && (old(closing) ==> closing)
      ensures !wake.Http? && (owned ==> !wake.Cancelled?)
      ensures quiet ==> enabled == old(enabled) && closing == old(closing)
      ensures fine ==> wake.Resumed?
    {
      connection := None;
      if child.None? {
        return Resumed;
      }
      child := None;
      wake := Suspend(owned, quiet, fine);
    }

    method StopService(owned: bool, quiet: bool, fine: bool) returns (wake: Wake)
      requires Sound() && updating && (watched ==> task)
      modifies this`enabled, this`closing, this`phase, this`connection, this`child, this`task, this`watched, this`saved, this`gate, this`native
      ensures Sound() && !watched && !task && !phase.Ready?
      ensures old(Recorded()) ==> Recorded()
      ensures old(Owned()) <==> Owned()
      ensures connection.None? && (wake.Resumed? ==> child.None?)
      ensures (enabled ==> old(enabled)) && (old(closing) ==> closing)
      ensures !wake.Http? && (owned ==> !wake.Cancelled?)
      ensures quiet ==> enabled == old(enabled) && closing == old(closing)
      ensures fine ==> wake.Resumed?
    {
      var running := task;
      connection, task := None, false;
      if running {
        // The cancelled watcher stops the child itself; gather swallows its exceptions.
        phase, watched := Stopping, false;
        var stopped: bool := *;
        if stopped {
          child := None;
        }
        wake := Suspend(owned, quiet, fine);
        if wake.Cancelled? {
          return;
        }
      }
      wake := StopChild(owned, quiet, fine);
    }

    method Start(identity: Identity, owned: bool, quiet: bool, fine: bool) returns (wake: Wake)
      requires Sound() && updating && !watched && connection.None? && child.None?
      modifies this`enabled, this`closing, this`phase, this`connection, this`child, this`watched, this`saved, this`gate, this`native
      ensures Sound() && !watched && phase.Starting?
      ensures old(Recorded()) ==> Recorded()
      ensures old(Owned()) <==> Owned()
      ensures if wake.Resumed? then connection == child == Some(identity) else connection.None?
      ensures child.Some? ==> child == Some(identity)
      ensures (enabled ==> old(enabled)) && (old(closing) ==> closing)
      ensures !wake.Http? && (owned ==> !wake.Cancelled?)
      ensures quiet ==> enabled == old(enabled) && closing == old(closing)
      ensures fine ==> wake.Resumed?
    {
      phase := Starting;
      wake := Suspend(owned, quiet, fine);
      if wake.Resumed? || wake.Cancelled? {
        // A cancelled spawn still takes ownership of the process.
        child := Some(identity);
      }
      if !wake.Resumed? {
        return;
      }
      wake := Suspend(owned, quiet, fine);   // the ready line
      if !wake.Resumed? {
        return;
      }
      wake := Suspend(owned, quiet, fine);   // the health request
      if !wake.Resumed? {
        return;
      }
      connection := Some(identity);
    }

    /** Downloads and unpacks, one await after each change of phase; the old service keeps running. */
    method Install(quiet: bool, fine: bool) returns (wake: Wake)
      requires Sound() && updating && !phase.Ready?
      modifies this`enabled, this`closing, this`phase, this`connection, this`child, this`watched, this`saved, this`gate, this`native
      ensures Sound() && !phase.Ready? && (old(Serving()) ==> Serving())
      ensures old(Recorded()) ==> Recorded()
      ensures old(Owned()) <==> Owned()
      ensures wake.Resumed? ==> phase.Unpacking?
      ensures connection == old(connection) || connection.None?
      ensures !wake.Http? && (enabled ==> old(enabled)) && (old(closing) ==> closing)
      ensures quiet ==> enabled == old(enabled) && closing == old(closing) && connection == old(connection) && gate == old(gate)
      ensures fine ==> wake.Resumed?
    {
      wake := Resumed;
      var i := 0;
      while i < 4 && wake.Resumed?
        invariant 0 <= i <= 4 && !wake.Http?
        invariant Sound() && !phase.Ready? && (old(Serving()) ==> Serving())
        invariant old(Recorded()) ==> Recorded()
        invariant old(Owned()) <==> Owned()
        invariant wake.Resumed? && i == 4 ==> phase.Unpacking?
        invariant connection == old(connection) || connection.None?
        invariant (enabled ==> old(enabled)) && (old(closing) ==> closing)
        invariant quiet ==> enabled == old(enabled) && closing == old(closing) && connection == old(connection) && gate == old(gate)
        invariant fine ==> wake.Resumed?
      {
        phase := [Checking, Runtime, Models, Unpacking][i];
        wake := Suspend(false, quiet, fine);
        i := i + 1;
      }
    }

    // ---- The record ----

    /** _save: the file is replaced as a whole or not at all. */
    method Save(fine: bool) returns (r: Saving)
      modifies this`saved
      ensures saved == if r.Stored? then Saved(enabled, installation, version) else old(saved)
      ensures fine ==> r.Stored?
    {
      r := *;
      r := if fine then Stored else r;
      if r.Stored? {
        saved := Saved(enabled, installation, version);
      }
    }

    /** _select_installation: memory names the new installation exactly if the file does. */
    method Select(identity: Identity, newVersion: Version, fine: bool) returns (stored: bool)
      requires Recorded()
      modifies this`installation, this`version, this`saved
      ensures Recorded()
      ensures installation == if stored then Some(identity) else old(installation)
      ensures version == if stored then Some(newVersion) else old(version)
      ensures fine ==> stored
    {
      var before, beforeVersion := installation, version;
      installation, version := Some(identity), Some(newVersion);
      var r := Save(fine);
      if r.OsError? {
        installation, version := before, beforeVersion;
      }
      return r.Stored?;
    }

    // ---- The update ----

    /** The swap itself, behind the closed gate: stop the old service, start the new one, record it. */
    method Swap(identity: Identity, newVersion: Version, quiet: bool, fine: bool)
      returns (wake: Wake, committed: bool, ghost started: bool)
      requires Sound() && updating && Recorded() && Serving() && Owned()
      modifies this`enabled, this`closing, this`installation, this`version, this`phase, this`connection, this`child,
        this`task, this`watched, this`saved, this`gate, this`native
      ensures Sound() && Owned() && Recorded() && (watched ==> task)
      ensures installation == if committed then Some(identity) else old(installation)
      ensures version == if committed then Some(newVersion) else old(version)
      ensures committed ==> started && Serving() && phase == if enabled then Ready else Disabled
      ensures committed <==> wake.Resumed?
      ensures committed ==> connection == if enabled then Some(identity) else None
      ensures !wake.Http? && (enabled ==> old(enabled)) && (old(closing) ==> closing)
      ensures fine ==> committed
      ensures quiet ==> enabled == old(enabled) && closing == old(closing)
    {
      committed, started := false, false;
      wake := StopService(false, quiet, fine);
      if !wake.Resumed? {
        return;
      }
      wake := Start(identity, false, quiet, fine);
      if !wake.Resumed? {
        return;
      }
      started := true;
      if !enabled {
        wake := StopChild(false, quiet, fine);
        if !wake.Resumed? {
          return;
        }
      }
      committed := Select(identity, newVersion, fine);
      if !committed {
        wake := Failed;
        return;
      }
      phase := if enabled then Ready else Disabled;
      if enabled {
        task, watched := true, true;
      }
    }

    /** The body of `_update` before its finally clause. */
    method Attempt(identity: Identity, newVersion: Version, quiet: bool, fine: bool)
      returns (wake: Wake, closed: bool, committed: bool, ghost started: bool)
      requires Sound() && updating && Recorded() && Serving() && !Owned() && !phase.Ready?
      modifies this`enabled, this`closing, this`installation, this`version, this`phase, this`connection, this`child,
        this`task, this`watched, this`saved, this`gate, this`native
      ensures Sound() && Recorded() && (Owned() <==> closed) && (watched ==> task)
      ensures installation == if committed then Some(identity) else old(installation)
      ensures version == if committed then Some(newVersion) else old(version)
      ensures committed ==> started && closed && Serving() && phase == if enabled then Ready else Disabled
      ensures committed <==> wake.Resumed?
      ensures !closed ==> Serving()
      ensures wake.Http? ==> !closed
      ensures (enabled ==> old(enabled)) && (old(closing) ==> closing)
      ensures committed ==> connection == if enabled then Some(identity) else None
      ensures quiet && fine ==> if old(gate.closed) then wake.Http? else committed
      ensures quiet ==> enabled == old(enabled) && closing == old(closing)
      ensures quiet && !closed ==> connection == old(connection)
    {
      closed, committed, started := false, false, false;
      wake := Install(quiet, fine);
      if !wake.Resumed? {
        return;
      }
      wake := Prepare(quiet, fine);
      if !wake.Resumed? {
        return;
      }
      closed := true;
      wake, committed, started := Swap(identity, newVersion, quiet, fine);
    }

    /** The old service again, or no service; only stopping a half-started child may still raise. */
    method Revive(previous: Identity, quiet: bool, fine: bool) returns (wake: Wake, ghost start: Wake)
      requires Sound() && updating && !watched && connection.None? && child.None?
      modifies this`enabled, this`closing, this`phase, this`connection, this`child, this`task, this`watched, this`saved, this`gate, this`native
      ensures Sound() && (old(Owned()) <==> Owned()) && (old(Recorded()) ==> Recorded()) && phase.Starting?
      ensures child == connection && (watched <==> start.Resumed?) && (start.Resumed? ==> task)
      ensures connection == if start.Resumed? then Some(previous) else None
      ensures (start.Resumed? ==> wake.Resumed?) && !wake.Cancelled? && !wake.Http?
      ensures (enabled ==> old(enabled)) && (old(closing) ==> closing)
      ensures quiet ==> enabled == old(enabled) && closing == old(closing)
      ensures fine ==> start.Resumed?
    {
      wake := Start(previous, true, quiet, fine);
      start := wake;
      if wake.Resumed? {
        task, watched := true, true;
      } else {
        wake := StopChild(true, quiet, fine);
      }
    }

    /**
     `settle` without its own finally clause: the old service comes back unless the update committed.
     `tried` is how the start of the old installation ended, if it was started.
    */
    method Restore(previous: Option<Identity>, switched: bool, failure: Failure, quiet: bool, fine: bool)
      returns (wake: Wake, after: Failure, ghost tried: Option<Wake>)
      requires Sound() && updating && (watched ==> task)
      requires !switched ==> child == connection && watched == connection.Some?
      modifies this`enabled, this`closing, this`phase, this`connection, this`child, this`task, this`watched, this`saved, this`gate, this`native
      ensures Sound() && (old(Owned()) <==> Owned()) && (old(Recorded()) ==> Recorded())
      ensures wake.Resumed? ==> child == connection && watched == connection.Some? && (watched ==> task)
      ensures wake.Resumed? ==> (phase.Ready? <==> connection.Some?) && (phase.Ready? || phase.Disabled? || phase.Error?)
      ensures wake.Resumed? && phase.Error? ==> enabled && !closing
      ensures wake.Resumed? && phase.Disabled? ==> !enabled || closing
      ensures connection.Some? ==> if switched then connection == previous else connection == old(connection)
      ensures !switched ==> connection == old(connection) && tried.None?
      ensures switched && tried.None? ==> connection.None?
      ensures quiet && tried.Some? ==> enabled && !closing && previous.Some?
      ensures wake.Resumed? && switched && enabled && !closing && previous.Some? ==> tried.Some?
      ensures wake.Resumed? && tried == Some(Resumed) ==> phase.Ready? && connection == previous
      ensures after == if tried.Some? && !tried.value.Resumed? && wake.Resumed? then RollbackFailed else failure
      ensures !wake.Cancelled? && (!switched ==> wake.Resumed?)
      ensures quiet ==> enabled == old(enabled) && closing == old(closing)
      ensures fine ==> wake.Resumed? && (tried.Some? ==> tried.value.Resumed?)
    {
      after, wake, tried := failure, Resumed, None;
      if switched {
        wake := StopService(true, quiet, fine);
        if !wake.Resumed? {
          return;
        }
        if enabled && !closing && previous.Some? {
          ghost var start;
          wake, start := Revive(previous.value, quiet, fine);
          tried := Some(start);
          if !wake.Resumed? {
            return;
          }
          if connection.None? {
            after := RollbackFailed;
          }
        }
      }
      if connection.Some? {
        phase := Ready;
      } else if !enabled || closing {
        phase := Disabled;
      } else {
        phase := Error;
      }
    }

    /** `settle`: the old service unless the update committed, then the gate, then the flags. */
    method Settle(previous: Option<Identity>, closed: bool, committed: bool, failure: Failure, quiet: bool, fine: bool)
      returns (wake: Wake, after: Failure, ghost tried: Option<Wake>)
      requires Sound() && updating && (watched ==> task) && (Owned() <==> closed) && (committed ==> Settled())
      requires !closed || committed ==> child == connection && watched == connection.Some?
      modifies this
      ensures Sound() && !updating && !Owned() && updateError == after && (old(Recorded()) ==> Recorded())
      ensures installation == old(installation) && version == old(version)
      ensures wake.Resumed? ==> Settled()
      ensures connection.Some? ==> connection == if closed && !committed then previous else old(connection)
      ensures after == if tried.Some? && !tried.value.Resumed? && wake.Resumed? then RollbackFailed else failure
      ensures tried.Some? ==> closed && !committed
      ensures wake.Resumed? && closed && !committed && enabled && !closing && previous.Some? ==> tried.Some?
      ensures !wake.Cancelled? && (committed ==> wake.Resumed?)
      ensures fine ==> wake.Resumed? && after == failure
      ensures quiet ==> enabled == old(enabled) && closing == old(closing)
      ensures quiet && (committed || !closed) ==> connection == old(connection)
      ensures quiet && committed ==> phase == old(phase)
      ensures quiet && !committed && wake.Resumed? ==>
                phase == if connection.Some? then Ready else if !enabled || closing then Disabled else Error
      ensures quiet && fine && closed && !committed && previous.Some? ==>
                connection == if enabled && !closing then previous else None
    {
      wake, after, tried := Resumed, failure, None;
      if !committed {
        wake, after, tried := Restore(previous, closed, failure, quiet, fine);
      }
      if closed {
        var reopened := Reopen(quiet);
        if !reopened.Resumed? {
          wake := reopened;
        }
      }
      updating, updateError := false, after;
    }

    /** At rest: a service or none, and a phase that says which. */
    ghost predicate Settled()
      reads this
    {
      child == connection && (phase.Ready? || phase.Disabled? || phase.Error?)
    }

    /**
     A whole update, however it ends. The record names the new installation exactly if its runtime started
     and plugin.json was replaced, in memory as in the file; the gate is closed afterwards exactly if a
     native update has closed it. `quiet` and `fine` speak of the attempt, `calm` of `settle`: nobody acts
     there and its awaits resume.
    */
    method Update(identity: Identity, newVersion: Version, quiet: bool, fine: bool, calm: bool)
      returns (r: Wake, ghost closed: bool, ghost committed: bool, ghost started: bool, ghost tried: Option<Wake>)
      requires Sound() && updating && Recorded() && Serving() && !Owned() && phase.Checking? && installation.Some?
      modifies this
      ensures !updating && Sound() && Recorded()
      ensures !Owned() && (gate.closed <==> native)
      ensures installation == if committed then Some(identity) else old(installation)
      ensures version == if committed then Some(newVersion) else old(version)
      ensures committed ==> started && r.Resumed?
      ensures phase.Ready? ==> connection == installation
      ensures r.Resumed? || r.Cancelled? ==> child == connection && (phase.Ready? || phase.Disabled? || phase.Error?)
      ensures r.Resumed? ==> (committed <==> updateError.NoFailure?)
      // The old installation is started again, and only a start that did not resume is a failed rollback.
      ensures updateError.RollbackFailed? ==> tried.Some? && !tried.value.Resumed?
      ensures tried.Some? ==> closed && !committed
      ensures r.Resumed? && closed && !committed && enabled && !closing ==> tried.Some?
      // An attempt in which nothing goes wrong ends with the new installation, serving unless disabled.
      ensures quiet && fine && !old(gate.closed) ==> committed
      ensures calm && committed ==>
                && phase == (if connection.Some? then Ready else Disabled) && connection == (if enabled then installation else None)
      // A failed swap ends with the old service, and the failure is kept.
      ensures calm && closed && !committed && enabled && !closing ==>
                && phase.Ready? && connection == old(installation)
                && updateError == if r.Cancelled? then NoFailure else UpdateFailed
      // A gate that somebody else has closed refuses the update.
      ensures quiet && fine && calm && old(gate.closed) ==> !closed && !committed && updateError == UpdateBusy
      // Whatever fails before the gate is closed leaves the old service running.
      ensures quiet && calm && !closed ==> connection == old(connection) && (connection.Some? ==> phase.Ready?)
    {
      var previous := installation;
      var shut, done, failure;
      r, shut, done, started := Attempt(identity, newVersion, quiet, fine);
      closed, committed := shut, done;
      failure := match r case Http => UpdateBusy case Failed => UpdateFailed case _ => NoFailure;
      var settled: Wake;
      settled, failure, tried := Settle(previous, shut, done, failure, calm, calm);
      if !settled.Resumed? {
        r := Failed;
      } else if !r.Cancelled? {
        r := Resumed;
      }
    }
  }
}
