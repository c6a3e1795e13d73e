/**
 A second start of the application (instance.rs): it either becomes the instance or asks the running one
 to come forward. The first half is the request desk inside an instance; the second is the workspace
 lock, the discovery record and the ports, with every process interleaved.
 */
module Activation {
  import opened Basics

  datatype Reply = Starting | Activated | Closing | Unreachable

  // ---- The request desk ----

  /** The installed handler: none yet, the window's, or the one a stopping instance leaves. */
  datatype Handler = Absent | Window | Stopped

  datatype Desk = Desk(pending: bool, handler: Handler)

  datatype Call = Request | Ready | Stop

  datatype Answer = Deferred | Handled(handler: Handler) | Consumed(had: bool) | Quiet

  const NEW_DESK := Desk(false, Absent)

  function After(d: Desk, c: Call): Desk {
    match c
    case Request => if d.handler.Absent? then d.(pending := true) else d
    case Ready => Desk(false, Window)
    case Stop => d.(handler := Stopped)
  }

  function AnswerOf(d: Desk, c: Call): Answer {
    match c
    case Request => if d.handler.Absent? then Deferred else Handled(d.handler)
    case Ready => Consumed(d.pending)
    case Stop => Quiet
  }

  /** The desk after a sequence of critical sections, whichever threads they came from. */
  function Served(calls: seq<Call>): Desk {
    if calls == [] then NEW_DESK else After(Served(calls[..|calls| - 1]), calls[|calls| - 1])
  }

  function AnswerAt(calls: seq<Call>, k: nat): Answer
    requires k < |calls|
  {
    AnswerOf(Served(calls[..k]), calls[k])
  }

  class RequestDesk {
    var pending: bool
    var handler: Handler

    function Value(): Desk
      reads this
    {
      Desk(pending, handler)
    }

    constructor ()
      ensures Value() == NEW_DESK
    {
      pending, handler := false, Absent;
    }

    /** The locked part of `request`: Deferred is the Starting reply, otherwise the handler is called unlocked. */
    method TakeRequest() returns (answer: Answer)
      modifies this
      ensures Value() == After(old(Value()), Request) && answer == AnswerOf(old(Value()), Request)
    {
      if handler.Absent? {
        pending := true;
        return Deferred;
      }
      return Handled(handler);
    }

    method InstallHandler() returns (had: bool)
      modifies this
      ensures Value() == After(old(Value()), Ready) && Consumed(had) == AnswerOf(old(Value()), Ready)
    {
      handler := Window;
      had := pending;
      pending := false;
    }

    method LeaveClosing()
      modifies this
      ensures Value() == After(old(Value()), Stop)
    {
      handler := Stopped;
    }
  }

  /** Until a handler is installed every request is deferred, and the desk remembers whether there was one. */
  lemma {:induction false} BeforeReady(calls: seq<Call>)
    ensures (Served(calls).handler.Absent? <==> forall i :: 0 <= i < |calls| ==> calls[i].Request?)
    ensures Served(calls).handler.Absent? ==> (Served(calls).pending <==> calls != [])
  {
    if calls != [] {
      var front := calls[..|calls| - 1];
      BeforeReady(front);
      assert forall i :: 0 <= i < |front| ==> front[i] == calls[i];
    }
  }

  lemma {:induction false} HandlerStays(calls: seq<Call>, k: nat)
    requires k < |calls| && !calls[k].Request?
    ensures !Served(calls).handler.Absent?
  {
    BeforeReady(calls);
  }

  /**
   No activation is lost or answered twice. A deferred request always precedes the first handler, and if
   that handler came from `ready`, that call is told of it; every later request reaches a handler.
  */
  lemma FirstReadyHearsOfDeferred(calls: seq<Call>, k: nat)
    requires k < |calls| && calls[k].Ready?
    requires forall i :: 0 <= i < k ==> calls[i].Request?
    ensures AnswerAt(calls, k) == Consumed(k > 0)
    ensures forall i :: 0 <= i < k ==> AnswerAt(calls, i).Deferred?
    ensures forall i :: k < i < |calls| && calls[i].Request? ==> AnswerAt(calls, i).Handled?
  {
    BeforeReady(calls[..k]);
    forall i | 0 <= i < k
      ensures AnswerAt(calls, i).Deferred?
    {
      BeforeReady(calls[..i]);
    }
    forall i | k < i < |calls| && calls[i].Request?
      ensures AnswerAt(calls, i).Handled?
    {
      assert calls[..i][k] == calls[k];
      HandlerStays(calls[..i], k);
    }
  }

  lemma {:induction false} PendingStays(calls: seq<Call>, r: nat)
    requires r < |calls| && AnswerAt(calls, r).Deferred? && forall i :: r < i < |calls| ==> !calls[i].Ready?
    ensures Served(calls).pending
  {
    var front := calls[..|calls| - 1];
    if r < |front| {
      assert front[..r] == calls[..r];
      PendingStays(front, r);
    }
  }

  /** Whatever happens in between, even a stop, the next `ready` after a deferred request is told. */
  lemma DeferredIsHeard(calls: seq<Call>, r: nat, k: nat)
    requires r < k < |calls| && AnswerAt(calls, r).Deferred? && calls[k].Ready?
    requires forall i :: r < i < k ==> !calls[i].Ready?
    ensures AnswerAt(calls, k) == Consumed(true)
  {
    assert calls[..k][..r] == calls[..r];
    PendingStays(calls[..k], r);
  }

  // ---- The workspace ----

  type Proc = nat
  type Port = nat
  type Gen = nat

  /** The discovery record. The generation is random: no two instances share one. */
  datatype Endpoint = Endpoint(port: Port, gen: Gen)

  /** Who listens on a port: an instance, or any other program with whatever byte it may answer. */
  datatype Listener = Server(proc: Proc, gen: Gen, desk: Desk) | Foreign(answer: Option<nat>)

  /** How far the holder of the workspace lock has come. */
  datatype Stage = Locked | Bound(port: Port, gen: Gen) | Published(port: Port, gen: Gen) | Unbound

  datatype Owner = Owner(proc: Proc, stage: Stage)

  /** What the window's handler may answer; only an instance without a handler says that it is starting. */
  type WindowReply = r: Reply | !r.Starting? witness Activated

  /** One critical section at the request desk of the instance with this generation, and what it returned. */
  datatype Section = Section(gen: Gen, call: Call, answer: Answer)

  /**
   A request that was answered with the byte that `forward` accepts as `reply`; whether its endpoint had
   ever been in the discovery record, and who held the lock at that moment. If an instance answered, `at`
   is the number of the critical section it did so in.
  */
  datatype Ack = Ack(asker: Proc, endpoint: Endpoint, peer: Listener, reply: Reply, recorded: bool, owner: Option<Owner>,
                     at: nat)

  datatype World = World(
    owner: Option<Owner>,
    record: Option<Endpoint>,
    ports: map<Port, Listener>,
    gens: set<Gen>,
    published: set<Endpoint>,    // history: every record there has been
    acks: seq<Ack>,              // history: every accepted answer
    sections: seq<Section>)      // history: every critical section at a request desk

  const EMPTY := World(None, None, map[], {}, {}, [], [])

  datatype Event =
    | Acquire(proc: Proc)
    | Bind(proc: Proc, port: Port, gen: Gen)
    | Publish(proc: Proc)
    | Prepare(proc: Proc)                       // ready() in the instance
    | Shut(proc: Proc)                          // Drop: the handler becomes the closing one
    | Withdraw(proc: Proc)                      // the listener goes: a failed start, or Drop after its worker ended
    | Unlock(proc: Proc)
    | Crash(proc: Proc)
    | Occupy(port: Port, answer: Option<nat>)   // another program listens
    | Leave(port: Port)
    | Ask(asker: Proc, endpoint: Endpoint, window: WindowReply)

  function Code(reply: Reply): nat {
    match reply
    case Starting => 1
    case Activated => 2
    case Closing => 3
    case Unreachable => 4
  }

  function Decoded(byte: nat): Option<Reply> {
    if byte == 1 then Some(Starting)
    else if byte == 2 then Some(Activated)
    else if byte == 3 then Some(Closing)
    else if byte == 4 then Some(Unreachable)
    else None
  }

  lemma CodesRoundTrip(reply: Reply)
    ensures Decoded(Code(reply)) == Some(reply)
  {
  }

  /** What an instance writes back: nothing unless the request carries its own generation. */
  function Respond(server: Listener, gen: Gen, window: WindowReply): (r: (Listener, Option<nat>))
    requires server.Server?
    ensures r.0.Server? && r.0.proc == server.proc && r.0.gen == server.gen
  {
    if gen != server.gen then (server, None)
    else
      var answer := AnswerOf(server.desk, Request);
      var reply := if answer.Deferred? then Starting else if answer.handler.Window? then window else Closing;
      (server.(desk := After(server.desk, Request)), Some(Code(reply)))
  }

  predicate Listens(w: World, port: Port, proc: Proc) {
    port in w.ports && w.ports[port].Server? && w.ports[port].proc == proc
  }

  predicate Owns(w: World, proc: Proc) {
    w.owner.Some? && w.owner.value.proc == proc
  }

  function Without(w: World, proc: Proc): map<Port, Listener> {
    map port | port in w.ports && !Listens(w, port, proc) :: w.ports[port]
  }

  function Next(w: World, e: Event): Option<World> {
    match e
    case Acquire(p) => if w.owner.Some? then None else Some(w.(owner := Some(Owner(p, Locked))))
    case Bind(p, port, gen) =>
      if !Owns(w, p) || !w.owner.value.stage.Locked? || port in w.ports || gen in w.gens then None
      else Some(w.(owner := Some(Owner(p, Bound(port, gen))), ports := w.ports[port := Server(p, gen, NEW_DESK)],
                   gens := w.gens + {gen}))
    case Publish(p) =>
      if !Owns(w, p) || !w.owner.value.stage.Bound? then None
      else
        var stage := w.owner.value.stage;
        var endpoint := Endpoint(stage.port, stage.gen);
        Some(w.(owner := Some(Owner(p, Published(stage.port, stage.gen))), record := Some(endpoint),
                published := w.published + {endpoint}))
    case Prepare(p) =>
      if !Owns(w, p) || !w.owner.value.stage.Published? || !Listens(w, w.owner.value.stage.port, p) then None
      else
        var port := w.owner.value.stage.port;
        Some(w.(ports := w.ports[port := w.ports[port].(desk := After(w.ports[port].desk, Ready))],
                sections := w.sections + [Section(w.ports[port].gen, Ready, AnswerOf(w.ports[port].desk, Ready))]))
    case Shut(p) =>
      if !Owns(w, p) || !w.owner.value.stage.Published? || !Listens(w, w.owner.value.stage.port, p) then None
      else
        var port := w.owner.value.stage.port;
        Some(w.(ports := w.ports[port := w.ports[port].(desk := After(w.ports[port].desk, Stop))],
                sections := w.sections + [Section(w.ports[port].gen, Stop, AnswerOf(w.ports[port].desk, Stop))]))
    case Withdraw(p) =>
      if !Owns(w, p) then None else Some(w.(owner := Some(Owner(p, Unbound)), ports := Without(w, p)))
    case Unlock(p) =>
      if !Owns(w, p) || !w.owner.value.stage.Unbound? then None else Some(w.(owner := None))
    case Crash(p) =>
      Some(w.(owner := if Owns(w, p) then None else w.owner, ports := Without(w, p)))
    case Occupy(port, answer) =>
      if port in w.ports then None else Some(w.(ports := w.ports[port := Foreign(answer)]))
    case Leave(port) =>
      if port !in w.ports || w.ports[port].Server? then None else Some(w.(ports := w.ports - {port}))
    case Ask(q, endpoint, window) =>
      if endpoint.port !in w.ports then None
      else
        var peer := w.ports[endpoint.port];
        var (after, byte) := if peer.Server? then Respond(peer, endpoint.gen, window) else (peer, peer.answer);
        var reply := if byte.None? then None else Decoded(byte.value);
        var ack := if reply.None? then []
                   else [Ack(q, endpoint, peer, reply.value, endpoint in w.published, w.owner, |w.sections|)];
        var section := if peer.Server? && peer.gen == endpoint.gen
                       then [Section(peer.gen, Request, AnswerOf(peer.desk, Request))] else [];
        Some(w.(ports := w.ports[endpoint.port := after], acks := w.acks + ack, sections := w.sections + section))
  }

  function Apply(w: World, e: Event): World {
    var next := Next(w, e);
    if next.Some? then next.value else w
  }

  function Run(w: World, script: seq<Event>): World
    decreases script
  {
    if script == [] then w else Run(Apply(w, script[0]), script[1..])
  }

  /** Only the holder of the lock listens, on the port and with the generation it has bound. */
  predicate ServersOwn(w: World) {
    forall port :: port in w.ports && w.ports[port].Server? ==>
      && w.owner.Some? && w.owner.value.proc == w.ports[port].proc
      && (w.owner.value.stage == Bound(port, w.ports[port].gen) || w.owner.value.stage == Published(port, w.ports[port].gen))
  }

  /** A holder that has bound its port listens there until it withdraws. */
  predicate OwnerListens(w: World) {
    w.owner.Some? ==>
      match w.owner.value.stage
      case Bound(port, gen) => Serves(w, port, gen)
      case Published(port, gen) => Serves(w, port, gen)
      case _ => true
  }

  predicate Serves(w: World, port: Port, gen: Gen) {
    port in w.ports && w.ports[port].Server? && w.ports[port].gen == gen && gen in w.gens
  }

  /** After publication the record is the holder's own; before it, no record names the holder. */
  predicate RecordCurrent(w: World) {
    && (w.owner.Some? && w.owner.value.stage.Published? ==>
          w.record == Some(Endpoint(w.owner.value.stage.port, w.owner.value.stage.gen)))
    && (w.owner.Some? && w.owner.value.stage.Bound? ==>
          Endpoint(w.owner.value.stage.port, w.owner.value.stage.gen) !in w.published)
    && (w.record.Some? ==> w.record.value in w.published)
    && (forall e :: e in w.published ==> e.gen in w.gens)
  }

  predicate Publishes(owner: Option<Owner>, e: Endpoint) {
    owner.Some? && owner.value.stage == Published(e.port, e.gen)
  }

  /**
   Who answered: to an endpoint out of the record the holder of the lock if it had published that very
   endpoint, and somebody else if not; an instance only under its own generation.
  */
  predicate Honest(a: Ack) {
    && (a.peer.Server? ==> a.peer.gen == a.endpoint.gen && a.owner.Some? && a.owner.value.proc == a.peer.proc)
    && (a.recorded ==> (a.peer.Server? <==> Publishes(a.owner, a.endpoint)))
  }

  /** The critical sections of one instance, as the calls its desk has served. */
  function CallsOf(sections: seq<Section>, gen: Gen): seq<Call> {
    if sections == [] then []
    else
      var last := sections[|sections| - 1];
      CallsOf(sections[..|sections| - 1], gen) + (if last.gen == gen then [last.call] else [])
  }

  /** The desk of every listening instance is what its history makes of a new one, and only instances have one. */
  predicate DesksFollow(w: World) {
    && (forall port :: port in w.ports && w.ports[port].Server? ==>
          w.ports[port].desk == Served(CallsOf(w.sections, w.ports[port].gen)))
    && (forall i :: 0 <= i < |w.sections| ==> w.sections[i].gen in w.gens)
  }

  /** Every critical section returned what the desk had to return after those before it. */
  predicate Answering(w: World) {
    forall i :: 0 <= i < |w.sections| ==> Rightly(w.sections, i)
  }

  predicate Rightly(sections: seq<Section>, i: nat)
    requires i < |sections|
  {
    sections[i].answer == AnswerOf(Served(CallsOf(sections[..i], sections[i].gen)), sections[i].call)
  }

  /** An instance's answer was given in a critical section of its own, and is `Starting` exactly if that deferred. */
  predicate FromSection(w: World, a: Ack) {
    a.peer.Server? ==>
      && a.at < |w.sections| && w.sections[a.at].gen == a.peer.gen && w.sections[a.at].call.Request?
      && (a.reply.Starting? <==> w.sections[a.at].answer.Deferred?)
  }

  predicate AcksFromSections(w: World) {
    forall i :: 0 <= i < |w.acks| ==> FromSection(w, w.acks[i])
  }

  predicate Core(w: World) {
    && ServersOwn(w) && OwnerListens(w) && RecordCurrent(w)
    && (forall i :: 0 <= i < |w.acks| ==> Honest(w.acks[i]))
  }

  predicate Inv(w: World) {
    Core(w) && DesksFollow(w) && Answering(w) && AcksFromSections(w)
  }

  lemma StepCore(w: World, e: Event)
    requires Core(w)
    ensures Core(Apply(w, e)) && w.acks <= Apply(w, e).acks && w.sections <= Apply(w, e).sections
  {
  }

  lemma CallsNext(sections: seq<Section>, x: Section, gen: Gen)
    ensures CallsOf(sections + [x], gen) == CallsOf(sections, gen) + (if x.gen == gen then [x.call] else [])
  {
    assert (sections + [x])[..|sections|] == sections;
  }

  lemma ServedNext(calls: seq<Call>, c: Call)
    ensures Served(calls + [c]) == After(Served(calls), c)
  {
    assert (calls + [c])[..|calls|] == calls;
  }

  lemma {:induction false} NoCalls(sections: seq<Section>, gen: Gen)
    requires forall i :: 0 <= i < |sections| ==> sections[i].gen != gen
    ensures CallsOf(sections, gen) == []
  {
    if sections != [] {
      NoCalls(sections[..|sections| - 1], gen);
    }
  }

  /** The section a step adds, if it enters one. */
  function Added(w: World, e: Event): seq<Section> {
    Apply(w, e).sections[|w.sections|..]
  }

  /** A step enters at most one critical section, on the desk of the only instance that listens. */
  lemma StepEnters(w: World, e: Event)
    requires Core(w) && Apply(w, e).sections != w.sections
    ensures exists port, call :: Enters(w, Apply(w, e), port, call)
  {
    match e
    case Prepare(p) => assert Enters(w, Apply(w, e), w.owner.value.stage.port, Ready);
    case Shut(p) => assert Enters(w, Apply(w, e), w.owner.value.stage.port, Stop);
    case Ask(_, endpoint, _) => assert Enters(w, Apply(w, e), endpoint.port, Request);
    case _ =>
  }

  /** One call at the desk behind this port: it is recorded with its answer, and the desk moves on. */
  predicate Enters(w: World, t: World, port: Port, call: Call) {
    && port in w.ports && w.ports[port].Server?
    && t.sections == w.sections + [Section(w.ports[port].gen, call, AnswerOf(w.ports[port].desk, call))]
    && t.ports == w.ports[port := w.ports[port].(desk := After(w.ports[port].desk, call))]
    && t.gens == w.gens
  }

  lemma EnterKeeps(w: World, t: World, port: Port, call: Call)
    requires Core(w) && DesksFollow(w) && Answering(w) && Enters(w, t, port, call)
    ensures DesksFollow(t) && Answering(t)
  {
    var x := t.sections[|w.sections|];
    assert w.ports[port].gen in w.gens;
    forall q | q in t.ports && t.ports[q].Server?
      ensures t.ports[q].desk == Served(CallsOf(t.sections, t.ports[q].gen))
    {
      CallsNext(w.sections, x, t.ports[q].gen);
      ServedNext(CallsOf(w.sections, x.gen), call);
    }
    forall i | 0 <= i < |t.sections|
      ensures Rightly(t.sections, i)
    {
      if i < |w.sections| {
        assert Rightly(w.sections, i);
        assert t.sections[..i] == w.sections[..i];
      } else {
        assert t.sections[..i] == w.sections;
      }
    }
  }

  /** A step that enters no section leaves every desk as it was; a new instance has a new one. */
  lemma QuietKeeps(w: World, e: Event)
    requires Core(w) && DesksFollow(w) && Answering(w) && Apply(w, e).sections == w.sections
    ensures DesksFollow(Apply(w, e)) && Answering(Apply(w, e))
  {
    if e.Bind? && Next(w, e).Some? {
      NoCalls(w.sections, e.gen);
    }
  }

  lemma StepDesks(w: World, e: Event)
    requires Core(w) && DesksFollow(w) && Answering(w)
    ensures DesksFollow(Apply(w, e)) && Answering(Apply(w, e))
  {
    hide Core, DesksFollow, Answering, Apply;
    if Apply(w, e).sections == w.sections {
      QuietKeeps(w, e);
    } else {
      StepEnters(w, e);
      var port, call :| Enters(w, Apply(w, e), port, call);
      EnterKeeps(w, Apply(w, e), port, call);
    }
  }

  lemma StepAcks(w: World, e: Event)
    requires AcksFromSections(w)
    ensures AcksFromSections(Apply(w, e))
  {
    var t := Apply(w, e);
    forall i | 0 <= i < |t.acks|
      ensures FromSection(t, t.acks[i])
    {
      if i < |w.acks| {
        assert FromSection(w, w.acks[i]);
      }
    }
  }

  lemma StepInv(w: World, e: Event)
    requires Inv(w)
    ensures Inv(Apply(w, e)) && w.acks <= Apply(w, e).acks && w.sections <= Apply(w, e).sections
  {
    hide Core, DesksFollow, Answering, AcksFromSections, Apply;
    StepCore(w, e);
    StepDesks(w, e);
    StepAcks(w, e);
  }

  lemma {:induction false} RunInv(w: World, script: seq<Event>)
    requires Inv(w)
    ensures Inv(Run(w, script)) && w.acks <= Run(w, script).acks
    decreases script
  {
    if script != [] {
      StepInv(w, script[0]);
      RunInv(Apply(w, script[0]), script[1..]);
    }
  }

  ghost predicate Reachable(w: World) {
    exists script :: w == Run(EMPTY, script)
  }

  lemma ReachableInv(w: World)
    requires Reachable(w)
    ensures Inv(w)
  {
    var script :| w == Run(EMPTY, script);
    RunInv(EMPTY, script);
  }

  // ---- No activation is lost ----

  /** The first `ready` of this generation after section `at` is section `k`. */
  predicate NextReady(sections: seq<Section>, gen: Gen, at: nat, k: nat) {
    && at < k < |sections| && sections[k].gen == gen && sections[k].call.Ready?
    && NoneReady(sections, gen, at, k)
  }

  predicate NoneReady(sections: seq<Section>, gen: Gen, at: nat, k: nat)
    requires k <= |sections|
  {
    forall i :: at < i < k && sections[i].gen == gen ==> !sections[i].call.Ready?
  }

  lemma {:induction false} StillPending(sections: seq<Section>, gen: Gen, at: nat, k: nat)
    requires at < k <= |sections| && sections[at].gen == gen && sections[at].call.Request?
    requires Rightly(sections, at) && sections[at].answer.Deferred? && NoneReady(sections, gen, at, k)
    ensures Served(CallsOf(sections[..k], gen)).pending
    decreases k
  {
    var before, x := sections[..k - 1], sections[k - 1];
    assert sections[..k] == before + [x];
    CallsNext(before, x, gen);
    if x.gen == gen {
      ServedNext(CallsOf(before, gen), x.call);
    }
    if at < k - 1 {
      StillPending(sections, gen, at, k - 1);
      assert x.gen == gen ==> !sections[k - 1].call.Ready?;
      assert CallsOf(before, gen) + [] == CallsOf(before, gen);
    } else {
      assert before == sections[..at] && x == sections[at];
    }
  }

  /**
   An instance that answered `Starting` owes that start an activation: its next `ready` is told, and until
   then its desk remembers.
  */
  ghost predicate Heard(w: World, a: Ack) {
    a.peer.Server? && a.reply.Starting? ==>
      && (forall k: nat :: NextReady(w.sections, a.peer.gen, a.at, k) ==> w.sections[k].answer == Consumed(true))
      && (NoneReady(w.sections, a.peer.gen, a.at, |w.sections|) ==>
            forall port :: port in w.ports && w.ports[port].Server? && w.ports[port].gen == a.peer.gen ==>
              w.ports[port].desk.pending)
  }

  lemma StartingIsHeard(w: World, i: nat)
    requires Inv(w) && i < |w.acks|
    ensures Heard(w, w.acks[i])
  {
    var a := w.acks[i];
    if a.peer.Server? && a.reply.Starting? {
      assert FromSection(w, a) && Rightly(w.sections, a.at);
      forall k: nat | NextReady(w.sections, a.peer.gen, a.at, k)
        ensures w.sections[k].answer == Consumed(true)
      {
        StillPending(w.sections, a.peer.gen, a.at, k);
        assert Rightly(w.sections, k);
      }
      if NoneReady(w.sections, a.peer.gen, a.at, |w.sections|) {
        StillPending(w.sections, a.peer.gen, a.at, |w.sections|);
        assert w.sections[..|w.sections|] == w.sections;
      }
    }
  }

  /** In every reachable world, and whatever happens next, the `ready` after a `Starting` answer returns true. */
  lemma NoActivationIsLost(w: World, i: nat, script: seq<Event>)
    requires Reachable(w) && i < |w.acks| && w.acks[i].peer.Server? && w.acks[i].reply.Starting?
    ensures i < |Run(w, script).acks| && Run(w, script).acks[i] == w.acks[i]
    ensures Heard(Run(w, script), w.acks[i])
  {
    ReachableInv(w);
    RunInv(w, script);
    assert Run(w, script).acks[i] == w.acks[i];
    StartingIsHeard(Run(w, script), i);
  }

  /** The instance that owes an activation and has not been ready yet is told by the next `ready`. */
  lemma ReadyIsTold(w: World, i: nat)
    requires Reachable(w) && i < |w.acks| && w.acks[i].peer.Server? && w.acks[i].reply.Starting?
    requires NoneReady(w.sections, w.acks[i].peer.gen, w.acks[i].at, |w.sections|)
    requires w.owner.Some? && w.owner.value.stage.Published? && w.owner.value.stage.gen == w.acks[i].peer.gen
    ensures Apply(w, Prepare(w.owner.value.proc)).sections
            == w.sections + [Section(w.acks[i].peer.gen, Ready, Consumed(true))]
  {
    ReachableInv(w);
    StartingIsHeard(w, i);
    assert w.ports[w.owner.value.stage.port].desk.pending;
  }

  predicate Acknowledges(reply: Reply) {
    reply.Starting? || reply.Activated?
  }

  /** The ask is answered with a byte that counts, by an instance or by another program. */
  predicate AnsweredBy(w: World, q: Proc, endpoint: Endpoint, window: WindowReply, instance: bool) {
    var after := Apply(w, Ask(q, endpoint, window));
    |after.acks| == |w.acks| + 1 && after.acks[|w.acks|].peer.Server? == instance
  }

  predicate Misled(w: World, q: Proc, endpoint: Endpoint, window: WindowReply) {
    && AnsweredBy(w, q, endpoint, window, false)
    && Acknowledges(Apply(w, Ask(q, endpoint, window)).acks[|w.acks|].reply)
  }

  /** Another program listens on the port and answers like an instance that came forward or will. */
  predicate Imitated(w: World, port: Port) {
    && port in w.ports && w.ports[port].Foreign?
    && (w.ports[port].answer == Some(1) || w.ports[port].answer == Some(2))
  }

  /**
   Whatever was in the record finds an instance exactly if the holder of the lock has published it and not
   withdrawn, and then that holder; it misleads exactly if that is not so and the port is imitated.
  */
  lemma RecordedEndpointIff(w: World, q: Proc, endpoint: Endpoint, window: WindowReply)
    requires Reachable(w) && endpoint in w.published
    ensures AnsweredBy(w, q, endpoint, window, true) <==> Publishes(w.owner, endpoint)
    ensures Publishes(w.owner, endpoint) ==> w.ports[endpoint.port].proc == w.owner.value.proc
    ensures Misled(w, q, endpoint, window) <==> !Publishes(w.owner, endpoint) && Imitated(w, endpoint.port)
  {
    ReachableInv(w);
    if endpoint.port in w.ports && w.ports[endpoint.port].Server? {
      CodesRoundTrip(window);
    }
  }

  /** In particular the present record finds an instance exactly if the holder is past publication and still listens. */
  lemma CurrentRecordFindsOwner(w: World, q: Proc, window: WindowReply)
    requires Reachable(w) && w.record.Some?
    ensures AnsweredBy(w, q, w.record.value, window, true) <==> w.owner.Some? && w.owner.value.stage.Published?
  {
    ReachableInv(w);
    RecordedEndpointIff(w, q, w.record.value, window);
  }

  // ---- Three ways to be misled while the lock is held ----

  lemma RunOne(w: World, e: Event)
    ensures Run(w, [e]) == Apply(w, e)
  {
    assert [e][1..] == [];
  }

  lemma ReachStep(w: World, e: Event)
    requires Reachable(w)
    ensures Reachable(Apply(w, e))
  {
    var script :| w == Run(EMPTY, script);
    RunConcat(EMPTY, script, [e]);
    RunOne(w, e);
  }

  const FIRST := Endpoint(80, 7)
  const SERVING := World(Some(Owner(1, Published(80, 7))), Some(FIRST), map[80 := Server(1, 7, NEW_DESK)], {7}, {FIRST}, [], [])

  lemma InstanceServes()
    ensures Reachable(SERVING)
  {
    assert EMPTY == Run(EMPTY, []);
    var locked := World(Some(Owner(1, Locked)), None, map[], {}, {}, [], []);
    var bound := World(Some(Owner(1, Bound(80, 7))), None, map[80 := Server(1, 7, NEW_DESK)], {7}, {}, [], []);
    ReachStep(EMPTY, Acquire(1));
    ReachStep(locked, Bind(1, 80, 7));
    ReachStep(bound, Publish(1));
  }

  /** A start while the first instance is still opening its window: it is deferred, and `ready` is told. */
  lemma SecondStartIsHeard(window: WindowReply)
    ensures var asked := Apply(SERVING, Ask(2, FIRST, window));
            && Reachable(asked) && |asked.acks| == 1 && asked.acks[0].reply == Starting && asked.acks[0].peer.proc == 1
            && Apply(asked, Prepare(1)).sections == [Section(7, Request, Deferred), Section(7, Ready, Consumed(true))]
  {
    InstanceServes();
    ReachStep(SERVING, Ask(2, FIRST, window));
    CodesRoundTrip(Starting);
  }

  const ORPHANED := World(None, Some(FIRST), map[80 := Foreign(Some(1))], {7}, {FIRST}, [], [])

  lemma PortIsTaken()
    ensures Reachable(ORPHANED)
  {
    InstanceServes();
    var died := World(None, Some(FIRST), map[], {7}, {FIRST}, [], []);
    assert Apply(SERVING, Crash(1)).ports == map[];
    ReachStep(SERVING, Crash(1));
    ReachStep(died, Occupy(80, Some(1)));
  }

  const TAKEN_OVER := World(Some(Owner(2, Locked)), Some(FIRST), map[80 := Foreign(Some(1))], {7}, {FIRST}, [], [])

  /** A new instance has the lock but has not yet replaced the record of a dead one. */
  lemma StaleRecordMisleads()
    ensures Reachable(TAKEN_OVER) && TAKEN_OVER.owner.value.stage.Locked?
    ensures TAKEN_OVER.record == Some(FIRST) && Misled(TAKEN_OVER, 3, FIRST, Activated)
  {
    PortIsTaken();
    ReachStep(ORPHANED, Acquire(2));
  }

  /** An instance that is stopping has withdrawn its listener and still holds the lock; the record is its own. */
  lemma GoneListenerMisleads() returns (w: World)
    ensures Reachable(w) && w.record == Some(FIRST) && w.owner == Some(Owner(1, Unbound))
    ensures Misled(w, 3, FIRST, Activated)
  {
    InstanceServes();
    var withdrawn := World(Some(Owner(1, Unbound)), Some(FIRST), map[], {7}, {FIRST}, [], []);
    assert Apply(SERVING, Withdraw(1)).ports == map[];
    ReachStep(SERVING, Withdraw(1));
    ReachStep(withdrawn, Occupy(80, Some(1)));
    w := World(Some(Owner(1, Unbound)), Some(FIRST), map[80 := Foreign(Some(1))], {7}, {FIRST}, [], []);
  }

  /** A start that read the record before it was replaced asks after the new one was published. */
  lemma StaleReadMisleads() returns (w: World)
    ensures Reachable(w) && w.record.Some? && w.record != Some(FIRST) && w.owner.Some? && w.owner.value.stage.Published?
    ensures FIRST in w.published && Misled(w, 3, FIRST, Activated)
  {
    StaleRecordMisleads();
    var second, ports := Endpoint(81, 8), map[80 := Foreign(Some(1)), 81 := Server(2, 8, NEW_DESK)];
    var bound := World(Some(Owner(2, Bound(81, 8))), Some(FIRST), ports, {7, 8}, {FIRST}, [], []);
    assert Apply(TAKEN_OVER, Bind(2, 81, 8)) == bound;
    ReachStep(TAKEN_OVER, Bind(2, 81, 8));
    w := World(Some(Owner(2, Published(81, 8))), Some(second), ports, {7, 8}, {FIRST, second}, [], []);
    assert Apply(bound, Publish(2)) == w;
    ReachStep(bound, Publish(2));
  }

  lemma {:induction false} RunConcat(w: World, a: seq<Event>, b: seq<Event>)
    ensures Run(w, a + b) == Run(Run(w, a), b)
    decreases a
  {
    if a == [] {
      assert a + b == b;
    } else {
      assert (a + b)[1..] == a[1..] + b;
      RunConcat(Apply(w, a[0]), a[1..], b);
    }
  }

  // ---- enter() ----

  predicate By(e: Event, p: Proc) {
    match e
    case Occupy(_, _) => false
    case Leave(_) => false
    case Ask(q, _, _) => q == p
    case _ => e.proc == p
  }

  /** What the others leave alone: whether `p` holds the lock, and how far it has come. */
  predicate Undisturbed(a: World, b: World, p: Proc) {
    && (Owns(a, p) <==> Owns(b, p)) && (Owns(a, p) ==> b.owner == a.owner)
    && (forall port :: port in a.ports && Listens(a, port, p) ==> Listens(b, port, p))
    && a.acks <= b.acks && a.published <= b.published
  }

  lemma OthersStay(w: World, e: Event, p: Proc)
    requires !By(e, p)
    ensures Undisturbed(w, Apply(w, e), p)
  {
  }

  datatype Entered = Primary | Yielded | Denied(reply: Reply) | Failed

  class Workspace {
    var w: World

    constructor ()
      ensures w == EMPTY && Inv(w)
    {
      w := EMPTY;
    }

    /** Whatever the other processes do; nothing at all if `alone`. */
    method Others(p: Proc, alone: bool)
      requires Inv(w)
      modifies this
      ensures Inv(w) && Undisturbed(old(w), w, p)
      ensures alone ==> w == old(w)
    {
      hide Inv, Apply;
      var script: seq<Event> := *;
      var i := 0;
      while i < |script|
        invariant Inv(w) && Undisturbed(old(w), w, p)
        invariant alone ==> w == old(w)
      {
        if !alone && !By(script[i], p) {
          StepInv(w, script[i]);
          OthersStay(w, script[i], p);
          w := Apply(w, script[i]);
        }
        i := i + 1;
      }
    }

    method Do(e: Event)
      requires Inv(w)
      modifies this
      ensures Inv(w) && w == Apply(old(w), e) && old(w).acks <= w.acks
    {
      StepInv(w, e);
      w := Apply(w, e);
    }

    /** `start`: probe, bind, record, worker. Every error return withdraws and lets the lock go; a record stays. */
    method Start(p: Proc, port: Port, gen: Gen, alone: bool, steady: bool) returns (ok: bool)
      requires Inv(w) && Owns(w, p) && w.owner.value.stage.Locked?
      modifies this
      ensures Inv(w) && old(w).acks <= w.acks
      ensures ok ==> Owns(w, p) && w.owner.value.stage == Published(port, gen) && w.record == Some(Endpoint(port, gen))
      ensures ok ==> Serves(w, port, gen) && w.ports[port].proc == p
      ensures !ok ==> !Owns(w, p)
      ensures alone && steady && port !in old(w).ports && gen !in old(w).gens ==> ok && w.ports[port].desk == NEW_DESK
    {
      hide Inv, Core;
      var probed: bool := *;
      Others(p, alone);
      ok := (probed || steady) && port !in w.ports && gen !in w.gens;
      if ok {
        Do(Bind(p, port, gen));
        Others(p, alone);
        var written: bool := *;
        ok := written || steady;
        if ok {
          Do(Publish(p));
          Others(p, alone);
          var spawned: bool := *;
          ok := spawned || steady;
          if ok {
            PublishedRecord(w);
            return;
          }
        }
      }
      Do(Withdraw(p));
      Do(Unlock(p));
    }

    /** `forward`: read the record, then ask whoever listens on its port by then. */
    method Forward(p: Proc, window: WindowReply, alone: bool) returns (reply: Option<Reply>)
      requires Inv(w) && !Owns(w, p)
      modifies this
      ensures Inv(w) && !Owns(w, p) && old(w).acks <= w.acks
      ensures reply.Some? ==> Answered(w.acks, |old(w).acks|, p, reply.value)
      ensures alone && Serving(old(w)) ==> reply == Some(Greeting(old(w), window))
    {
      hide Inv, Core;
      var endpoint := w.record;
      RecordIsHistory(w);
      if alone && Serving(w) {
        OwnerAnswers(w, p, window);
      }
      Others(p, alone);
      if endpoint.None? || endpoint.value.port !in w.ports {
        return None;
      }
      ghost var before := w.acks;
      var count := |w.acks|;
      AsksAnswer(w, p, endpoint.value, window);
      Do(Ask(p, endpoint.value, window));
      if |w.acks| == count {
        return None;
      }
      return Some(w.acks[count].reply);
    }

    /**
     `enter`, for as many rounds as the deadline allows. It yields only to an acknowledgement of an endpoint
     out of the record, and that is an instance's exactly if the holder of the lock had published it. Every
     instance that answered `Starting` still owes this start the activation or has told its `ready`.
    */
    method Enter(p: Proc, rounds: nat, port: Port, gen: Gen, window: WindowReply, alone: bool, steady: bool)
      returns (r: Entered)
      requires Inv(w) && !Owns(w, p)
      modifies this
      ensures Inv(w) && old(w).acks <= w.acks
      ensures r.Primary? <==> Owns(w, p)
      ensures r.Primary? ==> w.record == Some(Endpoint(port, gen)) && w.owner.value.stage == Published(port, gen)
      ensures r.Primary? ==> Serves(w, port, gen) && w.ports[port].proc == p
      ensures r.Yielded? ==> exists reply :: Acknowledges(reply) && Answered(w.acks, |old(w).acks|, p, reply)
      ensures r.Denied? ==> !Acknowledges(r.reply)
      ensures forall i :: 0 <= i < |w.acks| ==> Heard(w, w.acks[i])
      // Left alone: the first start becomes the instance, and every later one gets its answer.
      ensures alone && steady && rounds > 0 && old(w).owner.None? && port !in old(w).ports && gen !in old(w).gens ==> r.Primary?
      ensures alone && rounds > 0 && Serving(old(w)) ==>
                r == if Acknowledges(Greeting(old(w), window)) then Yielded else Denied(Greeting(old(w), window))
    {
      r := TryEnter(p, rounds, port, gen, window, alone, steady);
      forall i | 0 <= i < |w.acks|
        ensures Heard(w, w.acks[i])
      {
        StartingIsHeard(w, i);
      }
    }

    method TryEnter(p: Proc, rounds: nat, port: Port, gen: Gen, window: WindowReply, alone: bool, steady: bool)
      returns (r: Entered)
      requires Inv(w) && !Owns(w, p)
      modifies this
      ensures Inv(w) && old(w).acks <= w.acks
      ensures r.Primary? <==> Owns(w, p)
      ensures r.Primary? ==> w.record == Some(Endpoint(port, gen)) && w.owner.value.stage == Published(port, gen)
      ensures r.Primary? ==> Serves(w, port, gen) && w.ports[port].proc == p
      ensures r.Yielded? ==> exists reply :: Acknowledges(reply) && Answered(w.acks, |old(w).acks|, p, reply)
      ensures r.Denied? ==> !Acknowledges(r.reply)
      ensures alone && steady && rounds > 0 && old(w).owner.None? && port !in old(w).ports && gen !in old(w).gens ==> r.Primary?
      ensures alone && rounds > 0 && Serving(old(w)) ==>
                r == if Acknowledges(Greeting(old(w), window)) then Yielded else Denied(Greeting(old(w), window))
    {
      hide Inv, Apply, Answered;
      var round := 0;
      while round < rounds
        invariant Inv(w) && !Owns(w, p) && old(w).acks <= w.acks
        invariant round == 0 ==> w == old(w)
        invariant round > 0 && alone ==> !Serving(old(w)) && old(w).owner.Some?
      {
        Others(p, alone);
        if w.owner.None? {
          Take(p);
          var ok := Start(p, port, gen, alone, steady);
          return if ok then Primary else Failed;
        }
        ghost var from := |w.acks|;
        var reply := Forward(p, window, alone);
        if reply.Some? {
          AnsweredEarlier(w.acks, |old(w).acks|, from, p, reply.value);
          return if Acknowledges(reply.value) then Yielded else Denied(reply.value);
        }
        round := round + 1;
      }
      return Denied(Unreachable);
    }

    /** try_lock when nobody holds the lock. */
    method Take(p: Proc)
      requires Inv(w) && w.owner.None?
      modifies this
      ensures Inv(w) && Owns(w, p) && w.owner.value.stage.Locked? && w.acks == old(w).acks
      ensures w.ports == old(w).ports && w.gens == old(w).gens
    {
      Do(Acquire(p));
    }
  }

  /** Some instance has published its endpoint and listens. */
  predicate Serving(w: World) {
    w.owner.Some? && w.owner.value.stage.Published? && Serves(w, w.owner.value.stage.port, w.owner.value.stage.gen)
  }

  /** What that instance answers: it is starting, or what its window says, or that it is closing. */
  function Greeting(w: World, window: WindowReply): Reply
    requires Serving(w)
  {
    match w.ports[w.owner.value.stage.port].desk.handler
    case Absent => Starting
    case Window => window
    case Stopped => Closing
  }

  lemma OwnerAnswers(w: World, p: Proc, window: WindowReply)
    requires Inv(w) && Serving(w)
    ensures w.record == Some(Endpoint(w.owner.value.stage.port, w.owner.value.stage.gen))
    ensures w.record.value.port in w.ports
    ensures var after := Apply(w, Ask(p, w.record.value, window));
            |after.acks| == |w.acks| + 1 && after.acks[|w.acks|].reply == Greeting(w, window)
  {
    CodesRoundTrip(Greeting(w, window));
  }

  /**
   Since `from`, `p` got this reply to an endpoint out of the record: from the holder of the lock if it
   had published that endpoint at that moment, and from another program if not.
  */
  predicate Answered(acks: seq<Ack>, from: nat, p: Proc, reply: Reply) {
    exists i :: && from <= i < |acks| && acks[i].asker == p && acks[i].reply == reply && acks[i].recorded
                && (acks[i].peer.Server? <==> Publishes(acks[i].owner, acks[i].endpoint))
  }

  lemma AnsweredEarlier(acks: seq<Ack>, from: nat, later: nat, p: Proc, reply: Reply)
    requires from <= later && Answered(acks, later, p, reply)
    ensures Answered(acks, from, p, reply)
  {
  }

  lemma PublishedRecord(w: World)
    requires Inv(w) && w.owner.Some? && w.owner.value.stage.Published?
    ensures w.record == Some(Endpoint(w.owner.value.stage.port, w.owner.value.stage.gen))
    ensures Serving(w) && w.ports[w.owner.value.stage.port].proc == w.owner.value.proc
  {
  }

  lemma RecordIsHistory(w: World)
    requires Inv(w)
    ensures w.record.Some? ==> w.record.value in w.published
  {
  }

  lemma AsksAnswer(w: World, p: Proc, endpoint: Endpoint, window: WindowReply)
    requires Inv(w) && endpoint in w.published
    ensures var after := Apply(w, Ask(p, endpoint, window));
            && (Owns(w, p) <==> Owns(after, p))
            && (after.acks == w.acks
                || (|after.acks| == |w.acks| + 1 && Answered(after.acks, |w.acks|, p, after.acks[|w.acks|].reply)))
  {
    StepInv(w, Ask(p, endpoint, window));
    var after := Apply(w, Ask(p, endpoint, window));
    assert |after.acks| > |w.acks| ==> Honest(after.acks[|w.acks|]);
  }
}
