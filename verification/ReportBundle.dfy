/**
 What a diagnostic report collects (diagnostics.rs): the records of the memory ring and of the captured
 log files, selected once per event, under a size limit, and the flag that says whether anything is
 missing. Parsing a line into a record is a parameter.
 */
module ReportBundle {
  import opened Basics
  import opened Protocol
  import LogStore

  const BUNDLE_BYTES := 20 * 1024 * 1024

  datatype Source = Native | Engine | Frontend

  /** `permitted`: the event belongs to its component. `length`: encoded, after projection. */
  datatype Record = Record(schema: int, permitted: bool, session: string, id: string, time: int, component: Source,
                           length: nat, droppedCount: nat)

  /** The range asked for: a time window, and possibly one session. */
  datatype Window = Window(cutoff: int, now: int, only: Option<string>)

  type Parse = seq<byte> -> Option<Record>

  predicate WellFormed(r: Record) {
    r.schema == 1 && r.permitted && LogStore.Identity(r.session) && LogStore.Identity(r.id)
  }

  predicate InRange(r: Record, w: Window) {
    w.cutoff <= r.time <= w.now && (w.only.Some? ==> r.session == w.only.value)
  }

  // ---- Selection ----

  /** `order`: what was selected, in the order it was met. */
  datatype Selection = Selection(order: seq<Record>, bytes: nat, omitted: nat, malformed: nat)

  const NOTHING := Selection([], 0, 0, 0)

  predicate Has(order: seq<Record>, id: string) {
    exists i :: 0 <= i < |order| && order[i].id == id
  }

  /** `select` on one record. */
  function Select(s: Selection, r: Record, w: Window): Selection {
    if !WellFormed(r) then s.(malformed := s.malformed + 1)
    else if !InRange(r, w) || Has(s.order, r.id) then s
    else if s.bytes + r.length > BUNDLE_BYTES then s.(omitted := s.omitted + 1)
    else s.(order := s.order + [r], bytes := s.bytes + r.length)
  }

  function SelectAll(s: Selection, rs: seq<Record>, w: Window): Selection
    decreases rs
  {
    if rs == [] then s else SelectAll(Select(s, rs[0], w), rs[1..], w)
  }

  function Weight(rs: seq<Record>): nat {
    if rs == [] then 0 else Weight(rs[..|rs| - 1]) + rs[|rs| - 1].length
  }

  /** One record per event id, all wanted, within the size limit. */
  predicate Proper(s: Selection, w: Window) {
    && (forall i, j :: 0 <= i < j < |s.order| ==> s.order[i].id != s.order[j].id)
    && (forall i :: 0 <= i < |s.order| ==> WellFormed(s.order[i]) && InRange(s.order[i], w))
    && s.bytes == Weight(s.order) <= BUNDLE_BYTES
  }

  lemma SelectKeeps(s: Selection, r: Record, w: Window)
    requires Proper(s, w)
    ensures var t := Select(s, r, w);
            && Proper(t, w) && s.order <= t.order && s.omitted <= t.omitted && s.malformed <= t.malformed
            && (t.omitted == s.omitted && t.malformed == s.malformed ==>
                  WellFormed(r) && (InRange(r, w) ==> Has(t.order, r.id)))
            && (forall i :: |s.order| <= i < |t.order| ==> t.order[i] == r)
  {
    var t := Select(s, r, w);
    if |t.order| > |s.order| {
      assert t.order[..|t.order| - 1] == s.order;
      assert t.order[|s.order|].id == r.id;
    }
  }

  lemma HasGrows(a: seq<Record>, b: seq<Record>, id: string)
    requires a <= b && Has(a, id)
    ensures Has(b, id)
  {
    var i :| 0 <= i < |a| && a[i].id == id;
    assert b[i] == a[i];
  }

  /** Nothing omitted and nothing malformed means that every wanted record has its event selected, exactly once. */
  lemma {:induction false} SelectAllKeeps(s: Selection, rs: seq<Record>, w: Window)
    requires Proper(s, w)
    ensures var t := SelectAll(s, rs, w);
            && Proper(t, w) && s.order <= t.order && s.omitted <= t.omitted && s.malformed <= t.malformed
            && (t.omitted == s.omitted && t.malformed == s.malformed ==>
                  forall k :: 0 <= k < |rs| ==> WellFormed(rs[k]) && (InRange(rs[k], w) ==> Has(t.order, rs[k].id)))
            && (forall i :: |s.order| <= i < |t.order| ==> t.order[i] in rs)
    decreases rs
  {
    if rs != [] {
      var mid, t := Select(s, rs[0], w), SelectAll(s, rs, w);
      SelectKeeps(s, rs[0], w);
      SelectAllKeeps(mid, rs[1..], w);
      if t.omitted == s.omitted && t.malformed == s.malformed {
        forall k | 0 <= k < |rs|
          ensures WellFormed(rs[k]) && (InRange(rs[k], w) ==> Has(t.order, rs[k].id))
        {
          if k == 0 {
            if InRange(rs[0], w) {
              HasGrows(mid.order, t.order, rs[0].id);
            }
          } else {
            assert rs[k] == rs[1..][k - 1];
          }
        }
      }
      forall i | |s.order| <= i < |t.order|
        ensures t.order[i] in rs
      {
        if i < |mid.order| {
          assert t.order[i] == mid.order[i] == rs[0];
        } else {
          assert t.order[i] in rs[1..];
        }
      }
    }
  }

  lemma WeightFirst(r: Record, rest: seq<Record>)
    ensures Weight([r] + rest) == r.length + Weight(rest)
  {
    var all := [r] + rest;
    if rest == [] {
      assert all[..0] == [];
    } else {
      assert all[..|all| - 1] == [r] + rest[..|rest| - 1];
      WeightFirst(r, rest[..|rest| - 1]);
    }
  }

  /** A record counts as malformed exactly if it is, and none is left out of a selection that has room for all. */
  lemma {:induction false} SelectsWhatFits(s: Selection, rs: seq<Record>, w: Window)
    ensures SelectAll(s, rs, w).malformed == s.malformed <==> forall r :: r in rs ==> WellFormed(r)
    ensures SelectAll(s, rs, w).malformed >= s.malformed
    ensures s.bytes + Weight(rs) <= BUNDLE_BYTES ==> SelectAll(s, rs, w).omitted == s.omitted
    decreases rs
  {
    if rs != [] {
      SelectsWhatFits(Select(s, rs[0], w), rs[1..], w);
      assert rs == [rs[0]] + rs[1..];
      WeightFirst(rs[0], rs[1..]);
    }
  }

  /** A record of this schema with an event of its component and both identities, of the time and session asked for. */
  lemma WantedIs(r: Record, w: Window)
    ensures WellFormed(r) && InRange(r, w) <==>
              && r.schema == 1 && r.permitted
              && |r.session| == 32 && (forall c :: c in r.session ==> '0' <= c <= '9' || 'a' <= c <= 'f')
              && |r.id| == 32 && (forall c :: c in r.id ==> '0' <= c <= '9' || 'a' <= c <= 'f')
              && w.cutoff <= r.time <= w.now && (w.only.None? || w.only == Some(r.session))
  {
  }

  /** With room for all, the events selected are exactly those of the wanted records, each once. */
  lemma SelectsExactlyTheWanted(rs: seq<Record>, w: Window, id: string)
    requires Weight(rs) <= BUNDLE_BYTES
    ensures Has(SelectAll(NOTHING, rs, w).order, id) <==> exists r :: r in rs && r.id == id && WellFormed(r) && InRange(r, w)
  {
    SelectsWanted(NOTHING, rs, w, id);
  }

  lemma {:induction false} SelectsWanted(s: Selection, rs: seq<Record>, w: Window, id: string)
    requires s.bytes + Weight(rs) <= BUNDLE_BYTES
    ensures Has(SelectAll(s, rs, w).order, id) <==>
              Has(s.order, id) || exists r :: r in rs && r.id == id && WellFormed(r) && InRange(r, w)
    decreases rs
  {
    if rs != [] {
      var t := Select(s, rs[0], w);
      assert rs == [rs[0]] + rs[1..];
      WeightFirst(rs[0], rs[1..]);
      SelectsWanted(t, rs[1..], w, id);
      SelectedOne(s, rs[0], w, id);
    }
  }

  lemma SelectedOne(s: Selection, r: Record, w: Window, id: string)
    requires s.bytes + r.length <= BUNDLE_BYTES
    ensures Has(Select(s, r, w).order, id) <==> Has(s.order, id) || (r.id == id && WellFormed(r) && InRange(r, w))
  {
    var t := Select(s, r, w);
    HasGrowsBy(s.order, r, id);
  }

  lemma HasGrowsBy(order: seq<Record>, r: Record, id: string)
    ensures Has(order + [r], id) <==> Has(order, id) || r.id == id
  {
    var more := order + [r];
    assert more[|order|] == r;
    if i :| 0 <= i < |order| && order[i].id == id {
      assert more[i] == order[i];
    }
  }

  lemma {:induction false} SelectAllConcat(s: Selection, a: seq<Record>, b: seq<Record>, w: Window)
    ensures SelectAll(s, a + b, w) == SelectAll(SelectAll(s, a, w), b, w)
    decreases a
  {
    if a == [] {
      assert a + b == b;
    } else {
      assert (a + b)[1..] == a[1..] + b;
      SelectAllConcat(Select(s, a[0], w), a[1..], b, w);
    }
  }

  lemma SelectNone(s: Selection, w: Window)
    ensures SelectAll(s, [], w) == s
  {
  }

  lemma SelectOneMore(s: Selection, rs: seq<Record>, r: Record, w: Window)
    ensures SelectAll(s, rs + [r], w) == Select(SelectAll(s, rs, w), r, w)
  {
    SelectAllConcat(s, rs, [r], w);
    assert [r][1..] == [];
  }

  lemma NothingIsProper(w: Window)
    ensures Proper(NOTHING, w)
  {
  }

  /** A selection that was reached from a part of these records. */
  ghost predicate Drawn(before: Selection, after: Selection, rs: seq<Record>, w: Window) {
    exists k :: 0 <= k <= |rs| && after == SelectAll(before, rs[..k], w)
  }

  lemma DrawnSoFar(before: Selection, done: seq<Record>, rest: seq<Record>, w: Window)
    ensures Drawn(before, SelectAll(before, done, w), done + rest, w)
  {
    assert (done + rest)[..|done|] == done;
  }

  // ---- One captured file ----

  datatype Scanned = Scanned(records: seq<Record>, bad: nat)

  /** The read loop over one file: it gives up at a read error and at a line it cannot hold. */
  function Scan(data: seq<byte>, broken: bool, parse: Parse): Scanned
    decreases |data|
  {
    var count := ReadUntil(data, broken);
    if count.None? then Scanned([], 1)
    else if count.value == 0 then Scanned([], 0)
    else if count.value > MAX_RECORD || !Complete(data[..count.value]) then Scanned([], 1)
    else
      var rest := Scan(data[count.value..], broken, parse);
      match parse(data[..count.value])
      case Some(r) => Scanned([r] + rest.records, rest.bad)
      case None => Scanned(rest.records, rest.bad + 1)
  }

  lemma ScanNext(data: seq<byte>, broken: bool, parse: Parse)
    ensures var now, count := Scan(data, broken, parse), ReadUntil(data, broken);
            match count
            case None => now == Scanned([], 1)
            case Some(n) =>
              && n <= |data|
              && (n == 0 ==> now == Scanned([], 0))
              && (n > 0 && (n > MAX_RECORD || !Complete(data[..n])) ==> now == Scanned([], 1))
              && (0 < n <= MAX_RECORD && Complete(data[..n]) ==>
                    var rest := Scan(data[n..], broken, parse);
                    match parse(data[..n])
                    case Some(r) => now == Scanned([r] + rest.records, rest.bad)
                    case None => now == Scanned(rest.records, rest.bad + 1))
  {
  }

  predicate Parses(line: seq<byte>, parse: Parse) {
    |line| <= MAX_RECORD && parse(line).Some?
  }

  predicate AllParse(lines: seq<seq<byte>>, parse: Parse) {
    forall k :: 0 <= k < |lines| ==> Parses(lines[k], parse)
  }

  lemma AllParseFirst(line: seq<byte>, rest: seq<seq<byte>>, parse: Parse)
    ensures AllParse([line] + rest, parse) <==> Parses(line, parse) && AllParse(rest, parse)
  {
    var all := [line] + rest;
    assert all[0] == line;
    assert forall k :: 0 <= k < |rest| ==> all[k + 1] == rest[k];
  }

  /** A file counts as fully read exactly if it was, and every one of its lines was a record. */
  lemma {:induction false} ScanIsCleanIff(data: seq<byte>, broken: bool, parse: Parse)
    ensures Scan(data, broken, parse).bad == 0 <==>
            && !broken && Leftover(data) == []
            && AllParse(SplitLines(data), parse)
    decreases |data|
  {
    if data != [] {
      var n := LineLength(data);
      var line, rest, lines := data[..n], data[n..], SplitLines(data);
      if n <= MAX_RECORD && Complete(line) {
        ScanIsCleanIff(rest, broken, parse);
        AllParseFirst(line, SplitLines(rest), parse);
      } else if Complete(line) {
        assert lines[0] == line && !Parses(lines[0], parse);
      }
    }
  }

  /** And then it yields the record of each line, in order. */
  lemma {:induction false} CleanScanHasEveryLine(data: seq<byte>, broken: bool, parse: Parse)
    requires Scan(data, broken, parse).bad == 0
    ensures var lines, records := SplitLines(data), Scan(data, broken, parse).records;
            |records| == |lines| && (forall k :: 0 <= k < |lines| ==> parse(lines[k]) == Some(records[k]))
    decreases |data|
  {
    if data != [] {
      var n := LineLength(data);
      var rest := data[n..];
      CleanScanHasEveryLine(rest, broken, parse);
      assert SplitLines(data) == [data[..n]] + SplitLines(rest);
    }
  }

  // ---- The report ----

  /** A file opened under the store's lock: its first `size` bytes, and whether reading them fails at the end. */
  datatype Input = Input(data: seq<byte>, broken: bool)

  function Gathered(inputs: seq<Input>, parse: Parse): seq<Record> {
    if inputs == [] then []
    else Gathered(inputs[..|inputs| - 1], parse)
         + Scan(inputs[|inputs| - 1].data, inputs[|inputs| - 1].broken, parse).records
  }

  function Faults(inputs: seq<Input>, parse: Parse): nat {
    if inputs == [] then 0
    else Faults(inputs[..|inputs| - 1], parse) + Scan(inputs[|inputs| - 1].data, inputs[|inputs| - 1].broken, parse).bad
  }

  predicate Present(order: seq<Record>, source: Source) {
    exists i :: 0 <= i < |order| && order[i].component == source
  }

  function Dropped(order: seq<Record>): nat {
    if order == [] then 0 else Dropped(order[..|order| - 1]) + order[|order| - 1].droppedCount
  }

  datatype Report = Report(selection: Selection, partial: bool)

  datatype Outcome = Bundled(report: Report) | Canceled

  class Collector {
    var selection: Selection
    var partial: bool
    var bad: nat
    var stopped: bool

    constructor (degraded: bool)
      ensures selection == NOTHING && partial == degraded && bad == 0 && !stopped
    {
      selection, partial, bad, stopped := NOTHING, degraded, 0, false;
    }

    /** The loop over one file. A false result is the cancellation; `calm` rules out it and the time limit. */
    method ReadFile(input: Input, window: Window, parse: Parse, calm: bool) returns (ok: bool)
      requires !stopped
      modifies this
      ensures calm ==> ok && !stopped
      ensures ok && !stopped ==>
                && selection == SelectAll(old(selection), Scan(input.data, input.broken, parse).records, window)
                && bad == old(bad) + Scan(input.data, input.broken, parse).bad
      ensures bad >= old(bad) && (partial <==> old(partial) || bad > old(bad))
      ensures Drawn(old(selection), selection, Scan(input.data, input.broken, parse).records, window)
    {
      hide SelectAll, Select, Drawn, Scan, ReadUntil, Complete;
      ghost var all := Scan(input.data, input.broken, parse);
      var rest := input.data;
      ghost var done: seq<Record> := [];
      SelectNone(old(selection), window);
      assert [] + all.records == all.records;
      while true
        invariant !stopped
        invariant done + Scan(rest, input.broken, parse).records == all.records
        invariant bad + Scan(rest, input.broken, parse).bad == old(bad) + all.bad
        invariant old(bad) <= bad
        invariant selection == SelectAll(old(selection), done, window)
        invariant partial <==> old(partial) || bad > old(bad)
        decreases |rest|
      {
        ghost var now := Scan(rest, input.broken, parse);
        DrawnSoFar(old(selection), done, now.records, window);
        ScanNext(rest, input.broken, parse);
        var cancelled: bool, slow: bool := *, *;
        if cancelled && !calm {
          return false;
        }
        if slow && !calm {
          stopped := true;
          return true;
        }
        var count := ReadUntil(rest, input.broken);
        if count.None? {
          partial, bad := true, bad + 1;
          break;
        }
        if count.value == 0 {
          break;
        }
        var line := rest[..count.value];
        if |line| > MAX_RECORD || !Complete(line) {
          partial, bad := true, bad + 1;
          break;
        }
        rest := rest[count.value..];
        match parse(line) {
          case Some(r) =>
            SelectOneMore(old(selection), done, r, window);
            selection := Select(selection, r, window);
            assert now.records == [r] + Scan(rest, input.broken, parse).records;
            assert done + now.records == (done + [r]) + Scan(rest, input.broken, parse).records;
            done := done + [r];
          case None =>
            partial, bad := true, bad + 1;
        }
      }
      assert done + [] == done;
      return true;
    }

    /** The memory ring, then every captured file, then the verdict. */
    method Collect(memory: seq<Record>, inputs: seq<Input>, window: Window, parse: Parse, lost: nat, calm: bool)
      returns (outcome: Outcome)
      requires selection == NOTHING && bad == 0 && !stopped
      modifies this
      ensures calm ==> outcome.Bundled?
      ensures outcome.Bundled? ==> Proper(outcome.report.selection, window)
      ensures calm ==> outcome.report.selection == SelectAll(NOTHING, memory + Gathered(inputs, parse), window)
      ensures calm ==> (outcome.report.partial <==> old(partial) || Faults(inputs, parse) > 0
                                                    || Missing(outcome.report.selection, lost))
      ensures outcome.Bundled? && !outcome.report.partial ==>
                && !old(partial) && Faults(inputs, parse) == 0 && !Missing(outcome.report.selection, lost)
                && outcome.report.selection == SelectAll(NOTHING, memory + Gathered(inputs, parse), window)
    {
      hide SelectAll, Select, Proper, Scan, Missing;
      ghost var degraded := partial;
      SelectNone(NOTHING, window);
      var i := 0;
      while i < |memory|
        invariant 0 <= i <= |memory| && bad == 0 && !stopped && partial == degraded
        invariant selection == SelectAll(NOTHING, memory[..i], window)
      {
        SelectOneMore(NOTHING, memory[..i], memory[i], window);
        assert memory[..i + 1] == memory[..i] + [memory[i]];
        selection := Select(selection, memory[i], window);
        i := i + 1;
      }
      assert memory[..i] == memory && memory + [] == memory;
      NothingIsProper(window);
      SelectAllKeeps(NOTHING, memory, window);
      i := 0;
      while i < |inputs| && !stopped
        invariant 0 <= i <= |inputs| && Proper(selection, window)
        invariant calm ==> !stopped
        invariant !stopped ==>
                    && selection == SelectAll(NOTHING, memory + Gathered(inputs[..i], parse), window)
                    && bad == Faults(inputs[..i], parse)
        invariant partial <==> degraded || bad > 0
      {
        ghost var before := selection;
        var records := Scan(inputs[i].data, inputs[i].broken, parse).records;
        var ok := ReadFile(inputs[i], window, parse, calm);
        DrawnProper(before, selection, records, window);
        if !ok {
          return Canceled;
        }
        assert inputs[..i + 1][..i] == inputs[..i];
        SelectAllConcat(NOTHING, memory + Gathered(inputs[..i], parse), records, window);
        assert (memory + Gathered(inputs[..i], parse)) + records == memory + (Gathered(inputs[..i], parse) + records);
        i := i + 1;
      }
      assert i == |inputs| ==> inputs[..i] == inputs;
      return Bundled(Report(selection, partial || stopped || Missing(selection, lost)));
    }
  }

  /** What the verdict adds to unread input: skipped or reported losses, or a source that says nothing. */
  predicate Missing(s: Selection, lost: nat) {
    || s.omitted != 0 || s.malformed != 0 || lost != 0 || Dropped(s.order) != 0
    || !Present(s.order, Native) || !Present(s.order, Engine) || !Present(s.order, Frontend)
  }

  lemma {:induction false} DroppedIff(order: seq<Record>)
    ensures Dropped(order) != 0 <==> exists r :: r in order && r.droppedCount != 0
  {
    if order != [] {
      DroppedIff(order[..|order| - 1]);
      assert order == order[..|order| - 1] + [order[|order| - 1]];
    }
  }

  predicate Silent(order: seq<Record>, source: Source) {
    forall r :: r in order ==> r.component != source
  }

  /**
   Apart from unread input, a report is partial exactly if something was left out or refused, a loss was
   counted or is reported by a selected record, or one of the three sources has no record in it.
  */
  lemma MissingIff(s: Selection, lost: nat)
    ensures Missing(s, lost) <==>
              || s.omitted > 0 || s.malformed > 0 || lost > 0
              || (exists r :: r in s.order && r.droppedCount > 0)
              || (exists source :: Silent(s.order, source))
  {
    DroppedIff(s.order);
    PresentIff(s.order);
    hide Dropped, Present;
    if source :| Silent(s.order, source) {
      assert !Present(s.order, source);
    }
    if source :| !Present(s.order, source) {
      assert Silent(s.order, source);
    }
  }

  lemma PresentIff(order: seq<Record>)
    ensures forall source :: Present(order, source) <==> exists r :: r in order && r.component == source
  {
    forall source
      ensures Present(order, source) <==> exists r :: r in order && r.component == source
    {
      if i :| 0 <= i < |order| && order[i].component == source {
        assert order[i] in order;
      }
    }
  }

  lemma DrawnProper(before: Selection, after: Selection, rs: seq<Record>, w: Window)
    requires Proper(before, w) && Drawn(before, after, rs, w)
    ensures Proper(after, w)
  {
    var k :| 0 <= k <= |rs| && after == SelectAll(before, rs[..k], w);
    SelectAllKeeps(before, rs[..k], w);
  }

  lemma {:induction false} CleanFileIn(inputs: seq<Input>, parse: Parse, f: nat)
    requires f < |inputs| && Faults(inputs, parse) == 0
    ensures Scan(inputs[f].data, inputs[f].broken, parse).bad == 0
    ensures forall r :: r in Scan(inputs[f].data, inputs[f].broken, parse).records ==> r in Gathered(inputs, parse)
  {
    if f < |inputs| - 1 {
      CleanFileIn(inputs[..|inputs| - 1], parse, f);
    }
  }

  /** The record is well formed, and if it was asked for, its event is in the report exactly once. */
  predicate Accounted(r: Record, order: seq<Record>, w: Window) {
    && WellFormed(r)
    && (InRange(r, w) ==> exists i :: 0 <= i < |order| && order[i].id == r.id && Only(order, i))
  }

  predicate Only(order: seq<Record>, i: nat)
    requires i < |order|
  {
    forall j :: 0 <= j < |order| && j != i ==> order[j].id != order[i].id
  }

  lemma HasOnce(s: Selection, r: Record, w: Window)
    requires Proper(s, w) && Has(s.order, r.id) && WellFormed(r)
    ensures Accounted(r, s.order, w)
  {
    var i :| 0 <= i < |s.order| && s.order[i].id == r.id;
    assert Only(s.order, i);
  }

  /**
   A report that is not partial is complete: every line of every captured file is a record, every record
   of these and of the memory ring is accounted for, all three sources speak, nothing else was added,
   and the whole fits the size limit.
  */
  lemma CompleteIsComplete(memory: seq<Record>, inputs: seq<Input>, window: Window, parse: Parse, lost: nat)
    requires Faults(inputs, parse) == 0
    requires !Missing(SelectAll(NOTHING, memory + Gathered(inputs, parse), window), lost)
    ensures var s := SelectAll(NOTHING, memory + Gathered(inputs, parse), window);
            && (forall r :: r in memory ==> Accounted(r, s.order, window))
            && (forall f :: 0 <= f < |inputs| ==> FileAccounted(inputs[f], s.order, window, parse))
            && (forall r :: r in s.order ==> r in memory || r in Gathered(inputs, parse))
            && Weight(s.order) <= BUNDLE_BYTES && lost == 0
            && (forall source :: Present(s.order, source))
  {
    var rs := memory + Gathered(inputs, parse);
    var s := SelectAll(NOTHING, rs, window);
    SelectAllKeeps(NOTHING, rs, window);
    forall r | r in rs
      ensures Accounted(r, s.order, window)
    {
      var k :| 0 <= k < |rs| && rs[k] == r;
      if InRange(r, window) {
        HasOnce(s, r, window);
      }
    }
    forall f | 0 <= f < |inputs|
      ensures FileAccounted(inputs[f], s.order, window, parse)
    {
      CleanFileIn(inputs, parse, f);
      ScanIsCleanIff(inputs[f].data, inputs[f].broken, parse);
      CleanScanHasEveryLine(inputs[f].data, inputs[f].broken, parse);
      var lines, records := SplitLines(inputs[f].data), Scan(inputs[f].data, inputs[f].broken, parse).records;
      forall k | 0 <= k < |lines|
        ensures parse(lines[k]).Some? && Accounted(parse(lines[k]).value, s.order, window)
      {
        assert records[k] in records;
      }
    }
    forall source
      ensures Present(s.order, source)
    {
      match source
      case Native =>
      case Engine =>
      case Frontend =>
    }
  }

  predicate FileAccounted(input: Input, order: seq<Record>, w: Window, parse: Parse) {
    && !input.broken && Leftover(input.data) == []
    && (forall k :: 0 <= k < |SplitLines(input.data)| ==>
          parse(SplitLines(input.data)[k]).Some? && Accounted(parse(SplitLines(input.data)[k]).value, order, w))
  }
}
