/**
 Chapter saves and the paragraph revisions recorded beside them (storage_pg.py, segment_history.py).
 One project and one chapter; a save is one serialized transaction.
 */
module SegmentHistory {
  import opened Basics

  type Text = Option<string>

  datatype Kind = Translation | Update | Polish | Manual | CurrentSnapshot | BeforePolish

  /** A stored paragraph: its text, and the text polishing started from. */
  datatype Segment = Segment(target: Text, unpolished: Text)

  datatype Incoming = Incoming(index: int, segment: Segment)

  /** A revision row. `stamp` is created_at: the start of the transaction that wrote it. */
  datatype Row = Row(index: int, kind: Kind, before: Text, after: Text, stamp: int)

  datatype Store = Store(segments: map<int, Segment>, log: seq<Row>)

  datatype Save = Save(chapter: seq<Incoming>, manual: bool, stamp: int)

  const EMPTY := Store(map[], [])

  function TextOf(segments: map<int, Segment>, index: int): Text {
    if index in segments then segments[index].target else None
  }

  function PolishOf(segments: map<int, Segment>, index: int): Text {
    if index in segments then segments[index].unpolished else None
  }

  predicate Polished(segments: map<int, Segment>, s: Incoming, manual: bool) {
    && !manual
    && s.segment.unpolished.Some?
    && s.segment.unpolished != PolishOf(segments, s.index)
    && s.segment.unpolished != s.segment.target
  }

  function PlainKind(before: Text, manual: bool): Kind {
    if manual then Manual else if before.None? then Translation else Update
  }

  /** The rows one paragraph adds: none, one, or a translation and its polishing saved together. */
  function RowsOf(segments: map<int, Segment>, s: Incoming, manual: bool, stamp: int): seq<Row> {
    var before := TextOf(segments, s.index);
    var after := s.segment.target;
    var middle := s.segment.unpolished;
    if before == after then []
    else if Polished(segments, s, manual) then
      (if before != middle then [Row(s.index, PlainKind(before, false), before, middle, stamp)] else [])
      + [Row(s.index, Polish, middle, after, stamp)]
    else [Row(s.index, PlainKind(before, manual), before, after, stamp)]
  }

  function ChapterRows(segments: map<int, Segment>, chapter: seq<Incoming>, manual: bool, stamp: int): seq<Row> {
    if chapter == [] then []
    else ChapterRows(segments, chapter[..|chapter| - 1], manual, stamp)
         + RowsOf(segments, chapter[|chapter| - 1], manual, stamp)
  }

  /** segments(project, chapter, seg_seq) is a primary key. */
  predicate DistinctIndices(chapter: seq<Incoming>) {
    forall i, j :: 0 <= i < j < |chapter| ==> chapter[i].index != chapter[j].index
  }

  function Stored(chapter: seq<Incoming>): map<int, Segment> {
    if chapter == [] then map[]
    else Stored(chapter[..|chapter| - 1])[chapter[|chapter| - 1].index := chapter[|chapter| - 1].segment]
  }

  /** save_chapter. A duplicate key aborts the whole transaction. */
  function Saved(db: Store, s: Save): Store {
    if !DistinctIndices(s.chapter) then db
    else Store(Stored(s.chapter), db.log + ChapterRows(db.segments, s.chapter, s.manual, s.stamp))
  }

  function After(saves: seq<Save>): Store {
    if saves == [] then EMPTY else Saved(After(saves[..|saves| - 1]), saves[|saves| - 1])
  }

  class ChapterStore {
    var segments: map<int, Segment>
    var log: seq<Row>

    constructor ()
      ensures Store(segments, log) == EMPTY
    {
      segments, log := map[], [];
    }

    /** record_chapter_changes: the loop collects rows, one statement inserts them. */
    method RecordChanges(chapter: seq<Incoming>, manual: bool, stamp: int)
      modifies `log
      ensures log == old(log) + ChapterRows(segments, chapter, manual, stamp)
    {
      var changes: seq<Row> := [];
      var i := 0;
      while i < |chapter|
        invariant 0 <= i <= |chapter|
        invariant changes == ChapterRows(segments, chapter[..i], manual, stamp)
      {
        var s := chapter[i];
        var before, after, middle := TextOf(segments, s.index), s.segment.target, s.segment.unpolished;
        var rows: seq<Row> := [];
        if before != after {
          if !manual && middle.Some? && middle != PolishOf(segments, s.index) && middle != after {
            if before != middle {
              rows := rows + [Row(s.index, if before.None? then Translation else Update, before, middle, stamp)];
            }
            rows := rows + [Row(s.index, Polish, middle, after, stamp)];
          } else {
            rows := rows + [Row(s.index, PlainKind(before, manual), before, after, stamp)];
          }
        }
        assert rows == RowsOf(segments, s, manual, stamp);
        assert chapter[..i + 1][..i] == chapter[..i];
        changes := changes + rows;
        i := i + 1;
      }
      assert chapter[..|chapter|] == chapter;
      log := log + changes;
    }

    method SaveChapter(s: Save) returns (ok: bool)
      modifies this
      ensures Store(segments, log) == Saved(old(Store(segments, log)), s)
      ensures ok <==> DistinctIndices(s.chapter)
    {
      var wasLog := log;
      RecordChanges(s.chapter, s.manual, s.stamp);
      var next: map<int, Segment> := map[];
      var i := 0;
      while i < |s.chapter|
        invariant 0 <= i <= |s.chapter|
        invariant next == Stored(s.chapter[..i])
        invariant DistinctIndices(s.chapter[..i])
        invariant forall k :: k in next <==> exists j :: 0 <= j < i && s.chapter[j].index == k
      {
        if s.chapter[i].index in next {
          log := wasLog;
          return false;
        }
        assert s.chapter[..i + 1][..i] == s.chapter[..i];
        next := next[s.chapter[i].index := s.chapter[i].segment];
        i := i + 1;
      }
      assert s.chapter[..|s.chapter|] == s.chapter;
      segments := next;
      return true;
    }
  }

  // ---- The chain ----

  /** The rows of one paragraph, oldest first. */
  function LogOf(log: seq<Row>, index: int): seq<Row> {
    if log == [] then []
    else
      var r := log[|log| - 1];
      LogOf(log[..|log| - 1], index) + (if r.index == index then [r] else [])
  }

  function Last(rows: seq<Row>): Text {
    if rows == [] then None else rows[|rows| - 1].after
  }

  /** Each row starts from the text the one before it left; the first starts from nothing. */
  predicate Chain(rows: seq<Row>) {
    forall k :: 0 <= k < |rows| ==> rows[k].before == Last(rows[..k])
  }

  lemma ChainAppend(rows: seq<Row>, more: seq<Row>)
    requires Chain(rows)
    requires forall k :: 0 < k < |more| ==> more[k].before == more[k - 1].after
    ensures Chain(rows + more) <==> more == [] || more[0].before == Last(rows)
  {
    var all := rows + more;
    forall k | 0 <= k < |all|
      ensures Last(all[..k]) == if k <= |rows| then Last(rows[..k]) else more[k - |rows| - 1].after
    {
      if k <= |rows| {
        assert all[..k] == rows[..k];
      }
    }
    assert rows[..|rows|] == rows;
    if more != [] {
      assert all[|rows|] == more[0];
    }
    if Chain(all) && more != [] {
      assert all[|rows|].before == Last(all[..|rows|]);
    }
  }

  /** A paragraph's new rows lead from its stored text to its new text, and are none exactly if it did not change. */
  lemma RowsLead(segments: map<int, Segment>, s: Incoming, manual: bool, stamp: int)
    ensures var rows := RowsOf(segments, s, manual, stamp);
            && (rows == [] <==> TextOf(segments, s.index) == s.segment.target)
            && (rows != [] ==> rows[0].before == TextOf(segments, s.index) && Last(rows) == s.segment.target)
            && (forall k :: 0 < k < |rows| ==> rows[k].before == rows[k - 1].after)
            && (forall r | r in rows :: r.index == s.index && r.stamp == stamp && r.before != r.after)
  {
  }

  lemma {:induction false} LogOfConcat(a: seq<Row>, b: seq<Row>, index: int)
    ensures LogOf(a + b, index) == LogOf(a, index) + LogOf(b, index)
    decreases |b|
  {
    if b == [] {
      assert a + b == a;
    } else {
      var front := b[..|b| - 1];
      assert (a + b)[..|a + b| - 1] == a + front;
      LogOfConcat(a, front, index);
    }
  }

  lemma {:induction false} LogOfOwn(rows: seq<Row>, index: int)
    ensures (forall r | r in rows :: r.index == index) ==> LogOf(rows, index) == rows
    ensures (forall r | r in rows :: r.index != index) ==> LogOf(rows, index) == []
  {
    if rows != [] {
      LogOfOwn(rows[..|rows| - 1], index);
      assert rows == rows[..|rows| - 1] + [rows[|rows| - 1]];
    }
  }

  /** What one save adds to the rows of one paragraph. */
  function Added(db: Store, s: Save, index: int): seq<Row> {
    var next := Stored(s.chapter);
    if index in next then RowsOf(db.segments, Incoming(index, next[index]), s.manual, s.stamp) else []
  }

  lemma {:induction false} StoredHas(chapter: seq<Incoming>, index: int)
    ensures index in Stored(chapter) <==> exists i :: 0 <= i < |chapter| && chapter[i].index == index
  {
    if chapter != [] {
      var front := chapter[..|chapter| - 1];
      StoredHas(front, index);
      if index in Stored(front) {
        var i :| 0 <= i < |front| && front[i].index == index;
        assert chapter[i].index == index;
      }
      if exists i :: 0 <= i < |chapter| && chapter[i].index == index {
        var i :| 0 <= i < |chapter| && chapter[i].index == index;
        assert i < |front| ==> front[i].index == index;
      }
    }
  }

  lemma NotBefore(chapter: seq<Incoming>)
    requires chapter != [] && DistinctIndices(chapter)
    ensures chapter[|chapter| - 1].index !in Stored(chapter[..|chapter| - 1])
    ensures DistinctIndices(chapter[..|chapter| - 1])
  {
    StoredHas(chapter[..|chapter| - 1], chapter[|chapter| - 1].index);
  }

  lemma OwnRows(segments: map<int, Segment>, s: Incoming, manual: bool, stamp: int, index: int)
    ensures LogOf(RowsOf(segments, s, manual, stamp), index) == if s.index == index then RowsOf(segments, s, manual, stamp) else []
  {
    RowsLead(segments, s, manual, stamp);
    LogOfOwn(RowsOf(segments, s, manual, stamp), index);
  }

  lemma {:induction false} ChapterAdds(segments: map<int, Segment>, chapter: seq<Incoming>, manual: bool, stamp: int, index: int)
    requires DistinctIndices(chapter)
    ensures LogOf(ChapterRows(segments, chapter, manual, stamp), index)
         == if index in Stored(chapter) then RowsOf(segments, Incoming(index, Stored(chapter)[index]), manual, stamp) else []
  {
    if chapter != [] {
      var front, s := chapter[..|chapter| - 1], chapter[|chapter| - 1];
      hide RowsOf, LogOf;
      ChapterAdds(segments, front, manual, stamp, index);
      var rows, earlier := RowsOf(segments, s, manual, stamp), ChapterRows(segments, front, manual, stamp);
      LogOfConcat(earlier, rows, index);
      OwnRows(segments, s, manual, stamp, index);
      NotBefore(chapter);
      assert [] + rows == rows && LogOf(earlier, index) + [] == LogOf(earlier, index);
    }
  }

  lemma SaveAdds(db: Store, s: Save, index: int)
    requires DistinctIndices(s.chapter)
    ensures LogOf(Saved(db, s).log, index) == LogOf(db.log, index) + Added(db, s, index)
  {
    LogOfConcat(db.log, ChapterRows(db.segments, s.chapter, s.manual, s.stamp), index);
    ChapterAdds(db.segments, s.chapter, s.manual, s.stamp, index);
  }

  /** The stored chapter is the incoming one, paragraph by paragraph. */
  lemma {:induction false} StoredIs(chapter: seq<Incoming>, i: nat)
    requires DistinctIndices(chapter) && i < |chapter|
    ensures chapter[i].index in Stored(chapter) && Stored(chapter)[chapter[i].index] == chapter[i].segment
  {
    if i < |chapter| - 1 {
      StoredIs(chapter[..|chapter| - 1], i);
    }
  }

  /**
   What a save writes about a paragraph whose text it changes. A manual edit is one row of that kind. A
   draft that came with its polishing is two rows, or only the polishing if the draft was the stored text;
   any other change is one row, a translation where there was no text and an update where there was.
  */
  lemma SaveRecords(db: Store, s: Save, i: nat)
    requires DistinctIndices(s.chapter) && i < |s.chapter|
    requires TextOf(db.segments, s.chapter[i].index) != s.chapter[i].segment.target
    ensures var index, target, draft := s.chapter[i].index, s.chapter[i].segment.target, s.chapter[i].segment.unpolished;
            var before := if index in db.segments then db.segments[index].target else None;
            var drafted := if index in db.segments then db.segments[index].unpolished else None;
            var plain := if before == None then Translation else Update;
            LogOf(Saved(db, s).log, index) == LogOf(db.log, index) +
              if s.manual then [Row(index, Manual, before, target, s.stamp)]
              else if draft == None || draft == drafted || draft == target then [Row(index, plain, before, target, s.stamp)]
              else if draft == before then [Row(index, Polish, draft, target, s.stamp)]
              else [Row(index, plain, before, draft, s.stamp), Row(index, Polish, draft, target, s.stamp)]
  {
    SaveAdds(db, s, s.chapter[i].index);
    StoredIs(s.chapter, i);
    assert s.chapter[i] == Incoming(s.chapter[i].index, s.chapter[i].segment);
    hide LogOf, ChapterRows, Stored;
    assert forall r: Row :: [] + [r] == [r];
  }

  /** The rows form a chain and its end is the stored text. */
  predicate Replays(db: Store, index: int) {
    Chain(LogOf(db.log, index)) && Last(LogOf(db.log, index)) == TextOf(db.segments, index)
  }

  /** A save leaves out a paragraph that has a stored text. */
  predicate Drops(db: Store, s: Save, index: int) {
    DistinctIndices(s.chapter) && TextOf(db.segments, index).Some? && index !in Stored(s.chapter)
  }

  /** One save keeps the log replayable exactly if it does not drop the paragraph's text. */
  lemma SaveReplays(db: Store, s: Save, index: int)
    requires Replays(db, index)
    ensures Replays(Saved(db, s), index) <==> !Drops(db, s, index)
  {
    if DistinctIndices(s.chapter) {
      SaveAdds(db, s, index);
      var next := Stored(s.chapter);
      var rows, more := LogOf(db.log, index), Added(db, s, index);
      if index in next {
        RowsLead(db.segments, Incoming(index, next[index]), s.manual, s.stamp);
        ChainAppend(rows, more);
        assert more != [] ==> Last(rows + more) == Last(more);
        assert more == [] ==> rows + more == rows;
      } else {
        assert rows + more == rows;
      }
    }
  }

  /** No save of the sequence drops the paragraph's text. */
  predicate Keeps(saves: seq<Save>, index: int) {
    forall k :: 0 <= k < |saves| ==> !Drops(After(saves[..k]), saves[k], index)
  }

  lemma {:induction false} KeptReplays(saves: seq<Save>, index: int)
    requires Keeps(saves, index)
    ensures Replays(After(saves), index)
  {
    if saves != [] {
      var front := saves[..|saves| - 1];
      assert forall k :: 0 <= k < |front| ==> front[..k] == saves[..k];
      KeptReplays(front, index);
      SaveReplays(After(front), saves[|saves| - 1], index);
    }
  }

  lemma DropBreaks(saves: seq<Save>, index: int, k: nat)
    requires k < |saves| && Drops(After(saves[..k]), saves[k], index)
    ensures !Replays(After(saves[..k]), index) || !Replays(After(saves[..k + 1]), index)
  {
    var next := saves[..k + 1];
    assert next[..|next| - 1] == saves[..k] && next[|next| - 1] == saves[k];
    if Replays(After(saves[..k]), index) {
      SaveReplays(After(saves[..k]), saves[k], index);
    }
  }

  ghost predicate AlwaysReplays(saves: seq<Save>, index: int) {
    forall k :: 0 <= k <= |saves| ==> Replays(After(saves[..k]), index)
  }

  /** The log replays to the stored text after every save exactly if no save drops the text. */
  lemma ReplaysIffKept(saves: seq<Save>, index: int)
    ensures AlwaysReplays(saves, index) <==> Keeps(saves, index)
  {
    if Keeps(saves, index) {
      forall k | 0 <= k <= |saves|
        ensures Replays(After(saves[..k]), index)
      {
        var front := saves[..k];
        assert forall j :: 0 <= j < |front| ==> front[..j] == saves[..j];
        KeptReplays(front, index);
      }
    } else {
      var k :| 0 <= k < |saves| && Drops(After(saves[..k]), saves[k], index);
      DropBreaks(saves, index, k);
    }
  }

  lemma SaveOne(db: Store, s: Incoming, stamp: int)
    ensures Saved(db, Save([s], false, stamp)) == Store(map[s.index := s.segment], db.log + RowsOf(db.segments, s, false, stamp))
  {
    assert [s][..0] == [];
    assert Stored([]) == map[];
    assert ChapterRows(db.segments, [], false, stamp) == [];
  }

  lemma AfterOneMore(saves: seq<Save>, s: Save)
    ensures After(saves + [s]) == Saved(After(saves), s)
  {
    assert (saves + [s])[..|saves|] == saves;
  }

  /** Leaving a paragraph out and bringing it back restarts its chain from nothing. */
  lemma DroppedChainRestarts() returns (saves: seq<Save>)
    ensures !Chain(LogOf(After(saves).log, 1))
  {
    var a, b := Incoming(1, Segment(Some("a"), None)), Incoming(1, Segment(Some("b"), None));
    saves := [Save([a], false, 0)];
    AfterOneMore([], saves[0]);
    SaveOne(EMPTY, a, 0);
    AfterOneMore(saves, Save([], false, 1));
    saves := saves + [Save([], false, 1)];
    AfterOneMore(saves, Save([b], false, 2));
    SaveOne(After(saves), b, 2);
    saves := saves + [Save([b], false, 2)];
    var log := After(saves).log;
    assert log == [Row(1, Translation, None, Some("a"), 0), Row(1, Translation, None, Some("b"), 2)];
    LogOfOwn(log, 1);
    assert Last(log[..1]) == Some("a");
  }

  // ---- The history view ----

  /** A line of the view; `id` orders the rows of one transaction. */
  datatype Entry = Entry(kind: Kind, before: Text, after: Text, stamp: int, id: int)

  predicate Newer(a: Entry, b: Entry) {
    a.stamp > b.stamp || (a.stamp == b.stamp && a.id > b.id)
  }

  function Insert(e: Entry, sorted: seq<Entry>): (r: seq<Entry>)
    ensures multiset(r) == multiset(sorted) + multiset{e}
  {
    if sorted == [] || !Newer(sorted[0], e) then [e] + sorted
    else
      assert sorted == [sorted[0]] + sorted[1..];
      [sorted[0]] + Insert(e, sorted[1..])
  }

  /** ORDER BY created_at DESC, id DESC. */
  function NewestFirst(es: seq<Entry>): seq<Entry> {
    if es == [] then [] else Insert(es[|es| - 1], NewestFirst(es[..|es| - 1]))
  }

  /** The revision rows of one paragraph with their serial numbers. */
  function EntriesOf(log: seq<Row>, index: int): seq<Entry> {
    if log == [] then []
    else
      var r := log[|log| - 1];
      EntriesOf(log[..|log| - 1], index)
      + (if r.index == index then [Entry(r.kind, r.before, r.after, r.stamp, |log| - 1)] else [])
  }

  const SERIAL_FREE := -1

  function Snapshot(text: Text): Entry {
    Entry(CurrentSnapshot, None, text, 0, SERIAL_FREE)
  }

  function Before(text: Text): Entry {
    Entry(BeforePolish, None, text, 0, SERIAL_FREE)
  }

  predicate Mentions(es: seq<Entry>, text: Text) {
    exists i :: 0 <= i < |es| && (es[i].before == text || es[i].after == text)
  }

  /** load_history. `events` are edits logged before revisions existed; None is the missing paragraph. */
  method LoadHistory(db: Store, events: seq<Entry>, index: int) returns (view: Option<seq<Entry>>)
    ensures view.None? <==> index !in db.segments
    ensures view.Some? ==> view.value == View(db, events, index)
  {
    if index !in db.segments {
      return None;
    }
    var history := NewestFirst(EntriesOf(db.log, index) + events);
    ghost var rows := history;
    var target, unpolished := db.segments[index].target, db.segments[index].unpolished;
    if target.Some? && (history == [] || history[0].after != target) {
      history := [Snapshot(target)] + history;
    }
    assert history == (if NeedsSnapshot(rows, target) then [Snapshot(target)] else []) + rows;
    if unpolished.Some? {
      var i := 0;
      while i < |history| && unpolished != history[i].before && unpolished != history[i].after
        invariant 0 <= i <= |history|
        invariant forall j :: 0 <= j < i ==> unpolished != history[j].before && unpolished != history[j].after
      {
        i := i + 1;
      }
      assert i < |history| <==> Mentions(history, unpolished);
      if i == |history| {
        history := history + [Before(unpolished)];
      }
    }
    return Some(history);
  }

  predicate NeedsSnapshot(rows: seq<Entry>, target: Text) {
    target.Some? && (rows == [] || rows[0].after != target)
  }

  function View(db: Store, events: seq<Entry>, index: int): seq<Entry>
    requires index in db.segments
  {
    var rows := NewestFirst(EntriesOf(db.log, index) + events);
    var s := db.segments[index];
    var history := (if NeedsSnapshot(rows, s.target) then [Snapshot(s.target)] else []) + rows;
    if s.unpolished.Some? && !Mentions(history, s.unpolished) then history + [Before(s.unpolished)] else history
  }

  lemma MentionsSame(a: seq<Entry>, b: seq<Entry>, text: Text)
    requires multiset(a) == multiset(b) && Mentions(a, text)
    ensures Mentions(b, text)
  {
    var i :| 0 <= i < |a| && (a[i].before == text || a[i].after == text);
    assert a[i] in multiset(b);
    assert a[i] in b;
  }

  predicate Shows(e: Entry, text: Text) {
    e.before == text || e.after == text
  }

  lemma MentionsIff(es: seq<Entry>, text: Text)
    ensures Mentions(es, text) <==> exists e :: e in es && Shows(e, text)
  {
    if i :| 0 <= i < |es| && (es[i].before == text || es[i].after == text) {
      assert es[i] in es && Shows(es[i], text);
    }
  }

  lemma MentionsBehind(x: Entry, rows: seq<Entry>, text: Text)
    ensures Mentions([x] + rows, text) <==> Shows(x, text) || Mentions(rows, text)
    ensures Mentions([] + rows, text) <==> Mentions(rows, text)
  {
    assert [] + rows == rows;
    MentionsIff([x] + rows, text);
    MentionsIff(rows, text);
    hide Mentions, Shows;
    assert forall e :: e in [x] + rows <==> e == x || e in rows;
  }

  lemma SeenFirst(rows: seq<Entry>, target: Text)
    requires target.Some? && !NeedsSnapshot(rows, target)
    ensures Mentions(rows, target)
  {
    assert rows[0].after == target;
  }

  /**
   The view is every revision and older edit, a snapshot row where the latest of them does not leave the
   stored text, and the draft exactly if it is neither that text nor in any of them.
  */
  lemma ViewIs(db: Store, events: seq<Entry>, index: int)
    requires index in db.segments
    ensures var s, all := db.segments[index], EntriesOf(db.log, index) + events;
            && View(db, events, index)
               == (if NeedsSnapshot(NewestFirst(all), s.target) then [Snapshot(s.target)] else [])
                  + NewestFirst(all)
                  + (if s.unpolished.Some? && s.unpolished != s.target && !Mentions(all, s.unpolished) then [Before(s.unpolished)] else [])
            && multiset(NewestFirst(all)) == multiset(all)
  {
    var s, all := db.segments[index], EntriesOf(db.log, index) + events;
    var rows := NewestFirst(all);
    NewestFirstSorts(all);
    hide NewestFirst, EntriesOf, Mentions;
    MentionsBehind(Snapshot(s.target), rows, s.unpolished);
    if Mentions(all, s.unpolished) {
      MentionsSame(all, rows, s.unpolished);
    }
    if Mentions(rows, s.unpolished) {
      MentionsSame(rows, all, s.unpolished);
    }
    if s.unpolished.Some? && s.unpolished == s.target && !NeedsSnapshot(rows, s.target) {
      SeenFirst(rows, s.target);
    }
    var history := (if NeedsSnapshot(rows, s.target) then [Snapshot(s.target)] else []) + rows;
    assert history + [] == history;
  }

  predicate Sorted(es: seq<Entry>) {
    forall i, j :: 0 <= i < j < |es| ==> !Newer(es[j], es[i])
  }

  lemma {:induction false} InsertSorts(e: Entry, sorted: seq<Entry>)
    requires Sorted(sorted)
    ensures Sorted(Insert(e, sorted))
  {
    if sorted != [] && Newer(sorted[0], e) {
      InsertSorts(e, sorted[1..]);
      assert sorted == [sorted[0]] + sorted[1..];
      var rest := Insert(e, sorted[1..]);
      forall j | 0 <= j < |rest|
        ensures !Newer(rest[j], sorted[0])
      {
        assert rest[j] in multiset(rest);
      }
    }
  }

  lemma {:induction false} NewestFirstSorts(es: seq<Entry>)
    ensures Sorted(NewestFirst(es))
    ensures multiset(NewestFirst(es)) == multiset(es)
  {
    if es != [] {
      NewestFirstSorts(es[..|es| - 1]);
      InsertSorts(es[|es| - 1], NewestFirst(es[..|es| - 1]));
      assert es == es[..|es| - 1] + [es[|es| - 1]];
    }
  }

  function Reverse<T>(xs: seq<T>): seq<T> {
    if xs == [] then [] else [xs[|xs| - 1]] + Reverse(xs[..|xs| - 1])
  }

  /** Each transaction that touched the paragraph began no earlier than the ones committed before it. */
  predicate Ascending(rows: seq<Row>) {
    forall i, j :: 0 <= i < j < |rows| ==> rows[i].stamp <= rows[j].stamp
  }

  lemma {:induction false} EntriesFollowLog(log: seq<Row>, index: int)
    ensures var es, rows := EntriesOf(log, index), LogOf(log, index);
            && |es| == |rows|
            && (forall k :: 0 <= k < |es| ==> es[k] == Entry(rows[k].kind, rows[k].before, rows[k].after, rows[k].stamp, es[k].id))
            && (forall k :: 0 <= k < |es| ==> 0 <= es[k].id < |log|)
            && (forall i, j :: 0 <= i < j < |es| ==> es[i].id < es[j].id)
  {
    if log != [] {
      EntriesFollowLog(log[..|log| - 1], index);
    }
  }

  predicate OldestFirst(es: seq<Entry>) {
    forall i, j :: 0 <= i < j < |es| ==> Newer(es[j], es[i])
  }

  lemma {:induction false} ReverseIsNewestFirst(es: seq<Entry>)
    requires OldestFirst(es)
    ensures NewestFirst(es) == Reverse(es)
    ensures es != [] ==> Reverse(es)[0] == es[|es| - 1]
  {
    if es != [] {
      ReverseIsNewestFirst(es[..|es| - 1]);
    }
  }

  lemma {:induction false} ReverseAt<T>(xs: seq<T>, k: nat)
    requires k < |xs|
    ensures |Reverse(xs)| == |xs| && Reverse(xs)[|xs| - 1 - k] == xs[k]
  {
    if |xs| > 1 {
      ReverseAt(xs[..|xs| - 1], if k < |xs| - 1 then k else 0);
    }
  }

  /** The view lists the revisions latest first exactly if the stamps never run backwards. */
  lemma ViewFollowsLogIff(log: seq<Row>, index: int)
    ensures NewestFirst(EntriesOf(log, index)) == Reverse(EntriesOf(log, index)) <==> Ascending(LogOf(log, index))
  {
    var es := EntriesOf(log, index);
    EntriesFollowLog(log, index);
    if Ascending(LogOf(log, index)) {
      ReverseIsNewestFirst(es);
    } else {
      var rows := LogOf(log, index);
      var i, j :| 0 <= i < j < |rows| && rows[i].stamp > rows[j].stamp;
      NewestFirstSorts(es);
      ReverseAt(es, i);
      ReverseAt(es, j);
      assert Newer(es[i], es[j]);
    }
  }

  predicate LogView(db: Store, index: int)
    requires index in db.segments
  {
    var rows := Reverse(EntriesOf(db.log, index));
    View(db, [], index) == rows || View(db, [], index) == rows + [Before(db.segments[index].unpolished)]
  }

  lemma ReplayedView(db: Store, index: int)
    requires index in db.segments
    requires Replays(db, index) && Ascending(LogOf(db.log, index))
    ensures LogView(db, index)
  {
    var es := EntriesOf(db.log, index);
    EntriesFollowLog(db.log, index);
    ReverseIsNewestFirst(es);
    assert es + [] == es;
    assert !NeedsSnapshot(Reverse(es), db.segments[index].target);
    assert [] + Reverse(es) == Reverse(es);
  }

  lemma OnlyAscendingView(db: Store, index: int)
    requires index in db.segments && LogView(db, index)
    ensures Ascending(LogOf(db.log, index))
  {
    var es, s := EntriesOf(db.log, index), db.segments[index];
    var rows := NewestFirst(es);
    EntriesFollowLog(db.log, index);
    NewestFirstSorts(es);
    assert es + [] == es;
    assert |rows| == |multiset(rows)| == |es|;
    if es != [] {
      ReverseAt(es, |es| - 1);
      assert NeedsSnapshot(rows, s.target) ==> View(db, [], index)[0] == Snapshot(s.target);
      if !NeedsSnapshot(rows, s.target) {
        assert View(db, [], index)[..|es|] == rows;
        assert Reverse(es) == (Reverse(es) + [Before(s.unpolished)])[..|es|] == Reverse(es)[..|es|];
      }
    }
    ViewFollowsLogIff(db.log, index);
  }

  /** A kept paragraph's view, without older events, is its log latest first, exactly if starts follow commits. */
  lemma LoggedViewIff(saves: seq<Save>, index: int)
    requires Keeps(saves, index)
    requires index in After(saves).segments
    ensures LogView(After(saves), index) <==> Ascending(LogOf(After(saves).log, index))
  {
    KeptReplays(saves, index);
    if Ascending(LogOf(After(saves).log, index)) {
      ReplayedView(After(saves), index);
    } else if LogView(After(saves), index) {
      OnlyAscendingView(After(saves), index);
    }
  }

  // ---- When a snapshot row is shown ----

  ghost predicate Latest(es: seq<Entry>, e: Entry) {
    e in es && forall f :: f in es ==> !Newer(f, e)
  }

  /** No two different lines have the same time and number; the database leaves the order of such lines open. */
  predicate Ranked(es: seq<Entry>) {
    forall a, b :: a in es && b in es && a != b ==> Newer(a, b) || Newer(b, a)
  }

  lemma HeadIsLatest(es: seq<Entry>)
    requires es != []
    ensures NewestFirst(es) != [] && Latest(es, NewestFirst(es)[0])
  {
    var sorted := NewestFirst(es);
    NewestFirstSorts(es);
    assert |multiset(sorted)| == |es|;
    assert forall f :: f in es <==> f in multiset(sorted);
  }

  lemma SnapshotIffNeeded(db: Store, events: seq<Entry>, index: int)
    requires index in db.segments && forall e :: e in events ==> e.id >= 0
    ensures Snapshot(db.segments[index].target) in View(db, events, index)
            <==> NeedsSnapshot(NewestFirst(EntriesOf(db.log, index) + events), db.segments[index].target)
  {
    var all := EntriesOf(db.log, index) + events;
    var rows, s := NewestFirst(all), db.segments[index];
    Serials(db.log, index, events);
    hide NewestFirst, EntriesOf, Mentions;
    assert Snapshot(s.target) !in rows;
    assert Snapshot(s.target) != Before(s.unpolished);
    if NeedsSnapshot(rows, s.target) {
      assert View(db, events, index)[0] == Snapshot(s.target);
    }
  }

  lemma Serials(log: seq<Row>, index: int, events: seq<Entry>)
    requires forall e :: e in events ==> e.id >= 0
    ensures forall e :: e in NewestFirst(EntriesOf(log, index) + events) ==> e.id >= 0
  {
    var all := EntriesOf(log, index) + events;
    EntriesFollowLog(log, index);
    NewestFirstSorts(all);
    forall e | e in NewestFirst(all)
      ensures e.id >= 0
    {
      assert e in multiset(NewestFirst(all));
      assert e in all;
    }
  }

  /**
   A kept paragraph's view gets a snapshot row exactly if a line newer than the last committed revision
   leaves another text: a revision whose transaction began later, or an edit logged in the older way.
  */
  lemma SnapshotRowIff(saves: seq<Save>, events: seq<Entry>, index: int)
    requires Keeps(saves, index) && index in After(saves).segments
    requires Ranked(EntriesOf(After(saves).log, index) + events) && forall e :: e in events ==> e.id >= 0
    ensures var db := After(saves);
            var es, target := EntriesOf(db.log, index), db.segments[index].target;
            Snapshot(target) in View(db, events, index) <==>
              target.Some? && es != [] && exists e :: Latest(es + events, e) && Newer(e, es[|es| - 1]) && e.after != target
  {
    var db := After(saves);
    var es, target := EntriesOf(db.log, index), db.segments[index].target;
    var all := es + events;
    KeptReplays(saves, index);
    EntriesFollowLog(db.log, index);
    SnapshotIffNeeded(db, events, index);
    if target.Some? {
      var last := es[|es| - 1];
      assert last.after == target && last in all;
      HeadIsLatest(all);
      LatestIsHead(all);
      assert NewestFirst(all)[0] != last ==> Newer(NewestFirst(all)[0], last);
    }
  }

  lemma LatestIsHead(es: seq<Entry>)
    requires es != [] && Ranked(es)
    ensures NewestFirst(es) != [] && forall e :: Latest(es, e) ==> e == NewestFirst(es)[0]
  {
    HeadIsLatest(es);
  }

  const EARLIER := Save([Incoming(1, Segment(Some("a"), None))], false, 7)
  const LATER := Save([Incoming(1, Segment(Some("b"), None))], false, 5)

  lemma CommittedLate()
    ensures Keeps([EARLIER, LATER], 1)
    ensures After([EARLIER, LATER]).segments == map[1 := Segment(Some("b"), None)]
    ensures After([EARLIER, LATER]).log
         == [Row(1, Translation, None, Some("a"), 7), Row(1, Update, Some("a"), Some("b"), 5)]
  {
    var a, b := Incoming(1, Segment(Some("a"), None)), Incoming(1, Segment(Some("b"), None));
    AfterOneMore([], EARLIER);
    SaveOne(EMPTY, a, 7);
    assert [] + [EARLIER] == [EARLIER];
    AfterOneMore([EARLIER], LATER);
    SaveOne(After([EARLIER]), b, 5);
    assert [EARLIER] + [LATER] == [EARLIER, LATER];
    StoredHas([a], 1);
    StoredHas([b], 1);
    assert [a][0].index == 1 && [b][0].index == 1;
    assert [EARLIER, LATER][..1] == [EARLIER] && [EARLIER][..0] == [];
  }

  lemma EntriesOfOne(row: Row)
    ensures EntriesOf([row], row.index) == [Entry(row.kind, row.before, row.after, row.stamp, 0)]
  {
    assert [row][..0] == [];
  }

  lemma EntriesOfTwo(first: Row, second: Row)
    requires first.index == second.index
    ensures EntriesOf([first, second], first.index)
         == [Entry(first.kind, first.before, first.after, first.stamp, 0),
             Entry(second.kind, second.before, second.after, second.stamp, 1)]
  {
    EntriesOfOne(first);
    assert [first, second][..1] == [first];
  }

  lemma LatestLeads(a: Entry, b: Entry)
    requires Newer(a, b)
    ensures NewestFirst([a, b]) != [] && NewestFirst([a, b])[0] == a
  {
    var view := NewestFirst([a, b]);
    NewestFirstSorts([a, b]);
    assert multiset([a, b]) == multiset{a, b};
    assert |multiset(view)| == 2;
    assert a in multiset(view) && view[0] in multiset(view);
  }

  /**
   created_at is the start of a transaction, and the transaction starts before it waits for the state
   lock. A save that began earlier and committed later is listed below the text it replaced, and the
   view then adds a snapshot row although the log is complete.
  */
  lemma LateCommitMisplaced() returns (saves: seq<Save>)
    ensures Keeps(saves, 1) && 1 in After(saves).segments
    ensures View(After(saves), [], 1) != [] && View(After(saves), [], 1)[0] == Snapshot(After(saves).segments[1].target)
  {
    saves := [EARLIER, LATER];
    CommittedLate();
    var log := After(saves).log;
    EntriesOfTwo(log[0], log[1]);
    var es := EntriesOf(log, 1);
    LatestLeads(es[0], es[1]);
    assert es + [] == es;
  }
}
