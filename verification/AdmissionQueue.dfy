/**
 Admission to the diagnostic queue (diagnostics.rs): producers on any threads, one bounded channel, one
 writer. Every atomic operation is a step of its own. A call of `record` is named by its record, which
 carries a sequence number no other record has.
 */
module AdmissionQueue {
  import opened Basics

  const QUEUE := 4096
  const NORMAL_QUEUE := QUEUE - 512

  /** `normal`: INFO and DEBUG, which may not use the slots kept for failures. */
  datatype Rec = Rec(seqNo: nat, normal: bool)

  function Limit(r: Rec): nat {
    if r.normal then NORMAL_QUEUE else QUEUE
  }

  datatype Hand = Empty | Writing(rec: Rec) | Wrote(rec: Rec)

  datatype Queue = Queue(
    pending: int,
    dropped: nat,
    channel: seq<Rec>,
    alive: bool,                 // the receiver exists
    hand: Hand,                  // the writer between recv and fetch_sub
    admitted: set<Rec>,          // calls past a successful fetch_add, before try_send
    refused: set<Rec>,           // calls that must still give their slot back
    counting: set<Rec>,          // ... and that must still count the drop
    started: set<Rec>,           // history: every call that reached admission
    gone: set<Rec>,              // history: counted as dropped
    sent: seq<Rec>,              // history: queued, in order
    written: seq<Rec>,           // history: handed to the store, in order
    lost: seq<Rec>)              // history: queued or in hand when the writer ended

  const EMPTY := Queue(0, 0, [], true, Empty, {}, {}, {}, {}, {}, [], [], [])

  datatype Event =
    | FetchAdd(rec: Rec)
    | TrySend(rec: Rec)
    | GiveBack(rec: Rec)
    | Count(rec: Rec)
    | Receive
    | Write
    | FetchSub
    | Die

  /** None: the step is not next in anyone's code. */
  function Next(q: Queue, e: Event): Option<Queue> {
    match e
    case FetchAdd(r) =>
      if r in q.started then None
      else if q.pending >= Limit(r) then
        Some(q.(pending := q.pending + 1, refused := q.refused + {r}, started := q.started + {r}))
      else Some(q.(pending := q.pending + 1, admitted := q.admitted + {r}, started := q.started + {r}))
    case TrySend(r) =>
      if r !in q.admitted then None
      else if !q.alive || |q.channel| >= QUEUE then
        Some(q.(admitted := q.admitted - {r}, refused := q.refused + {r}))
      else Some(q.(admitted := q.admitted - {r}, channel := q.channel + [r], sent := q.sent + [r]))
    case GiveBack(r) =>
      if r !in q.refused then None
      else Some(q.(pending := q.pending - 1, refused := q.refused - {r}, counting := q.counting + {r}))
    case Count(r) =>
      if r !in q.counting then None
      else Some(q.(dropped := q.dropped + 1, counting := q.counting - {r}, gone := q.gone + {r}))
    case Receive =>
      if !q.alive || !q.hand.Empty? || q.channel == [] then None
      else Some(q.(channel := q.channel[1..], hand := Writing(q.channel[0])))
    case Write =>
      if !q.hand.Writing? then None
      else Some(q.(hand := Wrote(q.hand.rec), written := q.written + [q.hand.rec]))
    case FetchSub =>
      if !q.hand.Wrote? then None else Some(q.(pending := q.pending - 1, hand := Empty))
    case Die =>
      if !q.alive || q.hand.Wrote? then None
      else Some(q.(alive := false, channel := [], hand := Empty, lost := Unwritten(q)))
  }

  function Apply(q: Queue, e: Event): Queue {
    var next := Next(q, e);
    if next.Some? then next.value else q
  }

  function Run(q: Queue, script: seq<Event>): Queue
    decreases script
  {
    if script == [] then q else Run(Apply(q, script[0]), script[1..])
  }

  function InHand(q: Queue): seq<Rec> {
    if q.hand.Writing? then [q.hand.rec] else []
  }

  /** What was queued and has not reached the store. */
  function Unwritten(q: Queue): seq<Rec> {
    InHand(q) + q.channel
  }

  /** Slots that a record really uses. */
  function Used(q: Queue): nat {
    |q.admitted| + |q.channel| + (if q.hand.Empty? then 0 else 1) + |q.lost|
  }

  // ---- Invariants ----

  /** Every call is in exactly one place. */
  ghost predicate Places(q: Queue) {
    && q.admitted !! q.refused && q.admitted !! q.counting && q.admitted !! q.gone
    && q.refused !! q.counting && q.refused !! q.gone && q.counting !! q.gone
    && (forall r :: r in q.sent ==> r !in q.admitted && r !in q.refused && r !in q.counting && r !in q.gone)
    && (forall i, j :: 0 <= i < j < |q.sent| ==> q.sent[i] != q.sent[j])
    && (forall r :: r in q.started <==> r in q.admitted || r in q.refused || r in q.counting || r in q.gone || r in q.sent)
  }

  /** The counter is the slots in use and those a refused call has yet to give back. */
  predicate Counted(q: Queue) {
    && q.pending == Used(q) + |q.refused|
    && Used(q) <= QUEUE
    && q.dropped == |q.gone|
  }

  /** Records reach the store in the order they were queued, none twice and none skipped. */
  predicate Ordered(q: Queue) {
    && q.sent == q.written + Unwritten(q) + q.lost
    && (q.hand.Wrote? ==> q.written != [] && q.written[|q.written| - 1] == q.hand.rec)
    && (q.alive ==> q.lost == []) && (!q.alive ==> q.channel == [] && q.hand.Empty?)
  }

  /** INFO and DEBUG records between admission and the store. */
  function Normal(q: Queue): nat {
    |NormalAdmitted(q)| + Normals(Held(q)) + Normals(q.lost)
  }

  function NormalAdmitted(q: Queue): set<Rec> {
    set r | r in q.admitted && r.normal
  }

  function Held(q: Queue): seq<Rec> {
    (if q.hand.Empty? then [] else [q.hand.rec]) + q.channel
  }

  function Normals(rs: seq<Rec>): nat {
    if rs == [] then 0 else (if rs[0].normal then 1 else 0) + Normals(rs[1..])
  }

  ghost predicate Inv(q: Queue) {
    Places(q) && Counted(q) && Ordered(q) && Normal(q) <= NORMAL_QUEUE
  }

  lemma StepPlaces(q: Queue, e: Event)
    requires Places(q)
    ensures Places(Apply(q, e))
  {
  }

  /** Places, as far as counting one record more or less needs it. */
  predicate Single(q: Queue, r: Rec) {
    && (r in q.admitted || r in q.refused || r in q.counting || r in q.gone ==> r in q.started)
    && (r in q.admitted ==> r !in q.refused) && (r in q.counting ==> r !in q.gone)
  }

  lemma FetchAddCounted(q: Queue, r: Rec)
    requires Single(q, r) && Counted(q)
    ensures Counted(Apply(q, FetchAdd(r)))
  {
  }

  lemma TrySendCounted(q: Queue, r: Rec)
    requires Single(q, r) && Counted(q)
    ensures Counted(Apply(q, TrySend(r)))
  {
  }

  lemma GiveBackCounted(q: Queue, r: Rec)
    requires Single(q, r) && Counted(q)
    ensures Counted(Apply(q, GiveBack(r)))
  {
  }

  lemma CountCounted(q: Queue, r: Rec)
    requires Single(q, r) && Counted(q)
    ensures Counted(Apply(q, Count(r)))
  {
  }

  lemma StepCounted(q: Queue, e: Event)
    requires Places(q) && Counted(q) && Ordered(q)
    ensures Counted(Apply(q, e))
  {
    match e
    case FetchAdd(r) => FetchAddCounted(q, r);
    case TrySend(r) => TrySendCounted(q, r);
    case GiveBack(r) => GiveBackCounted(q, r);
    case Count(r) => CountCounted(q, r);
    case Receive =>
    case Write =>
    case FetchSub =>
    case Die =>
  }

  lemma SendOrdered(q: Queue, r: Rec)
    requires Ordered(q)
    ensures Ordered(Apply(q, TrySend(r)))
  {
    var after := Apply(q, TrySend(r));
    if after.sent != q.sent {
      assert Unwritten(after) == Unwritten(q) + [r];
    }
  }

  lemma TakeOrdered(q: Queue)
    requires Ordered(q)
    ensures Ordered(Apply(q, Receive)) && Ordered(Apply(q, Write))
  {
    assert Apply(q, Receive) != q ==> Unwritten(Apply(q, Receive)) == Unwritten(q);
    assert Apply(q, Write) != q ==> Unwritten(q) == [q.hand.rec] + Unwritten(Apply(q, Write));
  }

  lemma EndOrdered(q: Queue)
    requires Ordered(q)
    ensures Ordered(Apply(q, FetchSub)) && Ordered(Apply(q, Die))
  {
    assert q.hand.Wrote? ==> Unwritten(Apply(q, FetchSub)) == Unwritten(q);
    assert Apply(q, Die) != q ==> Unwritten(Apply(q, Die)) == [];
  }

  lemma StepOrdered(q: Queue, e: Event)
    requires Ordered(q)
    ensures Ordered(Apply(q, e))
  {
    match e
    case FetchAdd(_) => assert Unwritten(Apply(q, e)) == Unwritten(q);
    case TrySend(r) => SendOrdered(q, r);
    case GiveBack(_) => assert Unwritten(Apply(q, e)) == Unwritten(q);
    case Count(_) => assert Unwritten(Apply(q, e)) == Unwritten(q);
    case Receive => TakeOrdered(q);
    case Write => TakeOrdered(q);
    case FetchSub => EndOrdered(q);
    case Die => EndOrdered(q);
  }

  lemma {:induction false} NormalsSplit(a: seq<Rec>, b: seq<Rec>)
    ensures Normals(a + b) == Normals(a) + Normals(b)
    ensures Normals(a) <= |a|
  {
    if a == [] {
      assert a + b == b;
    } else {
      NormalsSplit(a[1..], b);
      assert (a + b)[1..] == a[1..] + b;
    }
  }

  lemma Fewer(a: set<Rec>, b: set<Rec>)
    requires a <= b
    ensures |a| <= |b|
  {
    assert b == a + (b - a);
  }

  lemma NormalWithinUsed(q: Queue)
    ensures Normal(q) <= Used(q)
  {
    Fewer(NormalAdmitted(q), q.admitted);
    NormalsSplit(Held(q), []);
    NormalsSplit(q.lost, []);
  }

  lemma AdmitNormal(q: Queue, r: Rec)
    requires r !in q.admitted
    ensures |NormalAdmitted(q.(admitted := q.admitted + {r}))| == |NormalAdmitted(q)| + (if r.normal then 1 else 0)
  {
    var more := q.(admitted := q.admitted + {r});
    assert NormalAdmitted(more) == NormalAdmitted(q) + (if r.normal then {r} else {});
  }

  lemma LeaveNormal(q: Queue, r: Rec)
    requires r in q.admitted
    ensures |NormalAdmitted(q.(admitted := q.admitted - {r}))| == |NormalAdmitted(q)| - (if r.normal then 1 else 0)
  {
    var fewer := q.(admitted := q.admitted - {r});
    assert r.normal ==> r in NormalAdmitted(q);
    assert NormalAdmitted(fewer) == NormalAdmitted(q) - (if r.normal then {r} else {});
  }

  lemma FetchAddNormal(q: Queue, r: Rec)
    requires Places(q) && Counted(q) && Normal(q) <= NORMAL_QUEUE
    ensures Normal(Apply(q, FetchAdd(r))) <= NORMAL_QUEUE
  {
    NormalWithinUsed(q);
    hide Normals;
    if r !in q.started && q.pending < Limit(r) {
      AdmitNormal(q, r);
      assert NormalAdmitted(Apply(q, FetchAdd(r))) == NormalAdmitted(q.(admitted := q.admitted + {r}));
    }
  }

  lemma TrySendNormal(q: Queue, r: Rec)
    requires r in q.admitted
    ensures Normal(Apply(q, TrySend(r))) <= Normal(q)
  {
    var after := Apply(q, TrySend(r));
    LeaveNormal(q, r);
    assert NormalAdmitted(after) == NormalAdmitted(q.(admitted := q.admitted - {r}));
    NormalsSplit(Held(q), [r]);
    assert after.sent != q.sent ==> Held(after) == Held(q) + [r];
  }

  lemma StepNormal(q: Queue, e: Event)
    requires Inv(q)
    ensures Normal(Apply(q, e)) <= NORMAL_QUEUE
  {
    var after := Apply(q, e);
    match e
    case FetchAdd(r) => FetchAddNormal(q, r);
    case TrySend(r) =>
      if r in q.admitted {
        TrySendNormal(q, r);
      }
    case Receive =>
      assert after != q ==> Held(after) == Held(q);
    case FetchSub =>
      assert q.hand.Wrote? ==> Held(q)[1..] == Held(after);
    case Die =>
      assert after != q ==> q.lost == [] && after.lost == Held(q) && Held(after) == [];
    case _ =>
      assert NormalAdmitted(after) == NormalAdmitted(q);
  }

  lemma StepInv(q: Queue, e: Event)
    requires Inv(q)
    ensures Inv(Apply(q, e))
  {
    StepPlaces(q, e);
    StepCounted(q, e);
    StepOrdered(q, e);
    StepNormal(q, e);
  }

  lemma {:induction false} RunInv(q: Queue, script: seq<Event>)
    requires Inv(q)
    ensures Inv(Run(q, script))
    decreases script
  {
    if script != [] {
      StepInv(q, script[0]);
      RunInv(Apply(q, script[0]), script[1..]);
    }
  }

  ghost predicate Reachable(q: Queue) {
    exists script :: q == Run(EMPTY, script)
  }

  lemma ReachableInv(q: Queue)
    requires Reachable(q)
    ensures Inv(q)
  {
    var script :| q == Run(EMPTY, script);
    RunInv(EMPTY, script);
  }

  // ---- What holds in every run ----

  /** An admitted record always finds room: try_send can fail only because the writer is gone. */
  lemma AdmittedFindsRoom(q: Queue, r: Rec)
    requires Reachable(q) && r in q.admitted
    ensures |q.channel| < QUEUE
    ensures var after := Apply(q, TrySend(r)); if q.alive then r in after.sent else r in after.refused
  {
    ReachableInv(q);
    assert |q.admitted| > 0;
  }

  lemma WithinLimits(q: Queue)
    requires Reachable(q)
    ensures |q.admitted| + |Unwritten(q)| <= 4096
    ensures Normal(q) <= 4096 - 512
  {
    ReachableInv(q);
  }

  /** The counter at zero, which is what `drain` waits for, means that every queued record was stored. */
  lemma DrainedMeansStored(q: Queue)
    requires Reachable(q) && q.pending == 0
    ensures q.written == q.sent && q.lost == [] && q.channel == [] && q.hand.Empty?
    ensures forall r :: r in q.started ==> r in q.written || r in q.gone || r in q.counting
  {
    ReachableInv(q);
    assert q.admitted == {} && q.refused == {};
  }

  /** One round of the writer: receive, store, give the slot back. */
  function Served(q: Queue): Queue {
    Apply(Apply(Apply(q, Receive), Write), FetchSub)
  }

  function Drained(q: Queue, n: nat): Queue
    decreases n
  {
    if n == 0 then q else Drained(Served(q), n - 1)
  }

  /** Left alone, the writer stores all that is queued, in order, and every slot comes back. */
  lemma {:induction false} WriterDrains(q: Queue)
    requires q.alive && q.hand.Empty?
    ensures Drained(q, |q.channel|)
            == q.(channel := [], written := q.written + q.channel, pending := q.pending - |q.channel|)
    decreases |q.channel|
  {
    if q.channel == [] {
      assert q.written + [] == q.written;
    } else {
      var first := q.channel[0];
      var next := q.(channel := q.channel[1..], written := q.written + [first], pending := q.pending - 1);
      assert Served(q) == next;
      WriterDrains(next);
      assert q.written + q.channel == (q.written + [first]) + q.channel[1..];
    }
  }

  lemma Distincts(rs: seq<Rec>)
    requires forall i, j :: 0 <= i < j < |rs| ==> rs[i] != rs[j]
    ensures |set r | r in rs| == |rs|
  {
    if rs != [] {
      var front, last := rs[..|rs| - 1], rs[|rs| - 1];
      Distincts(front);
      assert rs == front + [last];
      assert (set r | r in rs) == (set r | r in front) + {last};
      assert last !in front;
    }
  }

  lemma Apart(a: set<Rec>, b: set<Rec>, c: set<Rec>, d: set<Rec>, e: set<Rec>)
    requires a !! b !! c !! d !! e
    ensures |a + b + c + d + e| == |a| + |b| + |c| + |d| + |e|
  {
  }

  function Queued(q: Queue): set<Rec> {
    set r | r in q.sent
  }

  lemma PlacesApart(q: Queue)
    requires Places(q)
    ensures q.admitted !! q.refused !! q.counting !! q.gone !! Queued(q)
    ensures q.started == q.admitted + q.refused + q.counting + q.gone + Queued(q)
    ensures |Queued(q)| == |q.sent|
  {
    Distincts(q.sent);
    assert q.started == q.admitted + q.refused + q.counting + q.gone + Queued(q);
  }

  lemma SentWhere(q: Queue)
    requires Ordered(q)
    ensures |q.sent| == |q.written| + |Unwritten(q)| + |q.lost|
  {
  }

  /** Every call is stored, still on its way, lost with the writer, or counted as dropped, and only one of these. */
  lemma NothingVanishes(q: Queue)
    requires Reachable(q)
    ensures |q.started| == |q.written| + |Unwritten(q)| + |q.lost|
                           + |q.admitted| + |q.refused| + |q.counting| + q.dropped
  {
    ReachableInv(q);
    PlacesApart(q);
    SentWhere(q);
    hide Places, Ordered, Queued, Normal;
    Apart(q.admitted, q.refused, q.counting, q.gone, Queued(q));
  }

  // ---- The reserve for failures ----

  /**
   A record is refused exactly if the slots in use and the calls that are just being refused reach its
   limit. While no refusal is under way the reserve is exact.
  */
  lemma RefusedIff(q: Queue, r: Rec)
    requires Reachable(q) && r !in q.started
    ensures r in Apply(q, FetchAdd(r)).refused <==> Used(q) + |q.refused| >= Limit(r)
    ensures q.refused == {} && !r.normal && Used(q) < QUEUE ==> r in Apply(q, FetchAdd(r)).admitted
  {
    ReachableInv(q);
  }

  /** Ordinary records up to their limit and failures beyond it, queued faster than the writer takes them. */
  function Backlog(n: nat): seq<Event> {
    if n == 0 then []
    else
      var r := Rec(n - 1, n <= NORMAL_QUEUE);
      (Backlog(n - 1) + [FetchAdd(r)]) + [TrySend(r)]
  }

  lemma {:induction false} RunLast(q: Queue, script: seq<Event>, e: Event)
    ensures Run(q, script + [e]) == Apply(Run(q, script), e)
    decreases script
  {
    if script == [] {
      assert [e][1..] == [];
    } else {
      assert (script + [e])[1..] == script[1..] + [e];
      RunLast(Apply(q, script[0]), script[1..], e);
    }
  }

  lemma {:induction false} AfterBacklog(n: nat)
    requires n < QUEUE
    ensures var q := Run(EMPTY, Backlog(n));
            && q.pending == n && |q.channel| == n && q.alive && q.hand.Empty?
            && q.admitted == {} && q.refused == {} && q.lost == []
            && (forall r :: r in q.started ==> r.seqNo < n)
  {
    if n > 0 {
      AfterBacklog(n - 1);
      var r := Rec(n - 1, n <= NORMAL_QUEUE);
      RunLast(EMPTY, Backlog(n - 1), FetchAdd(r));
      RunLast(EMPTY, Backlog(n - 1) + [FetchAdd(r)], TrySend(r));
    }
  }

  /** With one slot left, a single ordinary record that is just being refused costs a failure that slot. */
  lemma OneRefusalStarvesFailure() returns (q: Queue, failure: Rec)
    ensures Reachable(q) && !failure.normal && failure !in q.started
    ensures |q.refused| == 1 && Used(q) == QUEUE - 1
    ensures failure in Apply(q, FetchAdd(failure)).refused
  {
    var n := QUEUE - 1;
    AfterBacklog(n);
    RunLast(EMPTY, Backlog(n), FetchAdd(Rec(n, true)));
    q := Run(EMPTY, Backlog(n) + [FetchAdd(Rec(n, true))]);
    failure := Rec(QUEUE, false);
  }

  // ---- The call ----

  lemma Room(q: Queue, r: Rec)
    requires Inv(q) && r in q.admitted
    ensures |q.channel| < QUEUE
  {
    assert |q.admitted| > 0;
  }

  predicate Own(e: Event, r: Rec) {
    e == FetchAdd(r) || e == TrySend(r) || e == GiveBack(r) || e == Count(r)
  }

  /** The others leave a call where it is, unless it is over. */
  predicate Stays(a: Queue, b: Queue, r: Rec) {
    && (r in a.started <==> r in b.started) && (r in a.admitted <==> r in b.admitted)
    && (r in a.refused <==> r in b.refused) && (r in a.counting <==> r in b.counting)
    && (r in a.gone <==> r in b.gone) && (r in a.sent <==> r in b.sent)
  }

  lemma OthersStay(q: Queue, e: Event, r: Rec)
    requires !Own(e, r)
    ensures Stays(q, Apply(q, e), r)
  {
  }

  class Channel {
    var q: Queue

    /** Any steps of the other producers and of the writer; none if `alone`. */
    method Others(r: Rec, alone: bool)
      requires Inv(q)
      modifies this
      ensures Inv(q) && Stays(old(q), q, r) && (alone ==> q == old(q))
    {
      hide Inv, Apply;
      var script: seq<Event> := *;
      var i := 0;
      while i < |script|
        invariant Inv(q) && Stays(old(q), q, r) && (alone ==> q == old(q))
      {
        if !alone && !Own(script[i], r) {
          StepInv(q, script[i]);
          OthersStay(q, script[i], r);
          q := Apply(q, script[i]);
        }
        i := i + 1;
      }
    }

    method Do(e: Event)
      requires Inv(q)
      modifies this
      ensures Inv(q) && q == Apply(old(q), e)
    {
      StepInv(q, e);
      q := Apply(q, e);
    }

    /** try_send: fails only if the receiver is gone. */
    method Offer(r: Rec, alone: bool) returns (queued: bool)
      requires Inv(q) && r in q.admitted
      modifies this
      ensures Inv(q) && (queued ==> r in q.sent) && (!queued ==> r in q.refused && !q.alive)
      ensures alone ==> queued == old(q).alive && q.pending == old(q).pending && q.dropped == old(q).dropped
                        && q.channel == old(q).channel + (if queued then [r] else [])
    {
      hide Inv;
      Others(r, alone);
      Room(q, r);
      queued := q.alive && |q.channel| < QUEUE;
      Do(TrySend(r));
    }

    /** The slot goes back before the drop is counted. */
    method Refuse(r: Rec, alone: bool)
      requires Inv(q) && r in q.refused
      modifies this
      ensures Inv(q) && r in q.gone
      ensures alone ==> q.pending == old(q).pending - 1 && q.dropped == old(q).dropped + 1 && q.channel == old(q).channel
    {
      hide Inv;
      Others(r, alone);
      Do(GiveBack(r));
      Others(r, alone);
      Do(Count(r));
    }

    /** The end of `record`: one slot is taken, and the record is queued or the slot is returned and the drop counted. */
    method Record(r: Rec, alone: bool) returns (queued: bool)
      requires Inv(q) && r !in q.started
      modifies this
      ensures Inv(q)
      ensures if queued then r in q.sent else r in q.gone
      ensures alone ==> (queued <==> old(q).pending < Limit(r) && old(q).alive)
      ensures alone ==> q.pending == old(q).pending + (if queued then 1 else 0)
      ensures alone ==> q.dropped == old(q).dropped + (if queued then 0 else 1)
      ensures alone ==> q.channel == old(q).channel + (if queued then [r] else [])
    {
      hide Inv;
      Others(r, alone);
      var before := q.pending;
      Do(FetchAdd(r));
      queued := false;
      if before < Limit(r) {
        queued := Offer(r, alone);
      }
      if !queued {
        Refuse(r, alone);
      }
    }
  }
}
