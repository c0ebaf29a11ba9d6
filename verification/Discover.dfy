/**
  The discovery cursor. Each run reads a source's feed from a stored watermark less an
  overlap, records what is in scope, and moves the watermark only after a complete run.
  Times are nanoseconds since the zero time; the cursor row keeps whole seconds as text.
 */
module Discover {
  import opened Prelude

  const SECOND: int := 1_000_000_000
  const OVERLAP: int := 48 * 3600 * SECOND

  /** Seconds from the zero time to the first year whose text no longer parses. */
  const END_OF_TEXT: int := 315_537_897_600

  /** One document of the feed, with what the exclusions and the scope vocabulary say of it. */
  datatype Doc = Doc(id: string, published: int, dropped: bool, inScope: bool)

  /** The stored cursor row. */
  datatype Cursor = Missing | Blank | Stamp(seconds: int)

  datatype State = State(cursor: Cursor, recorded: set<string>)

  datatype Problem = NothingFound | RecordFailed | Incomplete | CursorFailed

  /** One run: what the feed returned, and which of its own writes fail. */
  datatype Run = Run(
    docs: seq<Doc>, feedFails: bool, fullScan: bool, limit: int, recordFailsAt: Option<nat>, cursorFails: bool)

  // ---- the watermark -------------------------------------------------------------------

  /** Reading the cursor back: none, blank and unparsable text all mean the zero time. */
  function Watermark(c: Cursor): int {
    match c
    case Stamp(s) => if 0 <= s < END_OF_TEXT then s * SECOND else 0
    case _ => 0
  }

  function Written(t: int): Cursor { if t == 0 then Blank else Stamp(t / SECOND) }

  /** Where the query starts; zero means the whole feed. */
  function Since(stored: int, fullScan: bool): int {
    if fullScan || stored == 0 then 0 else stored - OVERLAP
  }

  predicate Reaches(since: int, published: int) { since == 0 || published >= since }

  predicate Named(d: Doc) { d.id != "" }

  predicate Eligible(d: Doc) { Named(d) && !d.dropped && d.inScope }

  function Highest(stored: int, docs: seq<Doc>): (t: int)
    ensures t >= stored
  {
    if docs == [] then stored else
      var before, d := Highest(stored, docs[..|docs| - 1]), docs[|docs| - 1];
      if Named(d) && d.published > before then d.published else before
  }

  /** The documents a run records: the eligible ones, up to a positive limit. */
  function Taken(docs: seq<Doc>, limit: int): seq<Doc> {
    if docs == [] then [] else
      var before, d := Taken(docs[..|docs| - 1], limit), docs[|docs| - 1];
      if Eligible(d) && (limit <= 0 || |before| < limit) then before + [d] else before
  }

  function Ids(docs: seq<Doc>): set<string> { set d | d in docs :: d.id }

  /** The documents handled before a write fails, or all of them. */
  function Handled(run: Run): seq<Doc> {
    match run.recordFailsAt
    case Some(k) => if k < |run.docs| && FailsAt(run, k) then run.docs[..k] else run.docs
    case None => run.docs
  }

  /** The failing write is one the run attempts. */
  predicate FailsAt(run: Run, k: nat)
    requires k < |run.docs|
  {
    Eligible(run.docs[k]) && (run.limit <= 0 || |Taken(run.docs[..k], run.limit)| < run.limit)
  }

  predicate WriteFails(run: Run) {
    run.recordFailsAt.Some? && run.recordFailsAt.value < |run.docs| && FailsAt(run, run.recordFailsAt.value)
  }

  function Outcome(run: Run): Option<Problem> {
    if run.feedFails && run.docs == [] then Some(NothingFound)
    else if WriteFails(run) then Some(RecordFailed)
    else if run.feedFails then Some(Incomplete)
    else if run.cursorFails then Some(CursorFailed)
    else None
  }

  function After(s: State, run: Run): State {
    State(
      if Outcome(run) == None then Written(Highest(Watermark(s.cursor), run.docs)) else s.cursor,
      s.recorded + Ids(Taken(Handled(run), run.limit)))
  }

  // ---- the run itself ------------------------------------------------------------------

  class Ledger {
    var cursor: Cursor
    var recorded: set<string>

    function Now(): State reads this { State(cursor, recorded) }

    constructor ()
      ensures Now() == State(Missing, {})
    {
      cursor, recorded := Missing, {};
    }

    method Discover(run: Run) returns (problem: Option<Problem>)
      modifies this
      ensures problem == Outcome(run)
      ensures Now() == After(old(Now()), run)
    {
      hide Highest, Taken, Ids;
      var stored := Watermark(cursor);
      NoDocs(stored, run.limit);
      if run.feedFails && |run.docs| == 0 {
        assert Handled(run) == [];
        return Some(NothingFound);
      }
      var newWatermark, enqueued := stored, 0;
      for i := 0 to |run.docs|
        invariant cursor == old(cursor)
        invariant newWatermark == Highest(stored, run.docs[..i])
        invariant enqueued == |Taken(run.docs[..i], run.limit)|
        invariant recorded == old(recorded) + Ids(Taken(run.docs[..i], run.limit))
        invariant WriteFails(run) ==> i <= run.recordFailsAt.value
      {
        var d := run.docs[i];
        OneMoreDoc(stored, run.docs, i, run.limit);
        if d.id == "" { continue; }
        if d.published > newWatermark { newWatermark := d.published; }
        if d.dropped || !d.inScope { continue; }
        if run.limit > 0 && enqueued >= run.limit { continue; }
        if run.recordFailsAt == Some(i) { return Some(RecordFailed); }
        recorded := recorded + {d.id};
        enqueued := enqueued + 1;
      }
      assert run.docs[..|run.docs|] == run.docs;
      if run.feedFails { return Some(Incomplete); }
      if run.cursorFails { return Some(CursorFailed); }
      cursor := Written(newWatermark);
      return None;
    }
  }

  lemma NoDocs(stored: int, limit: int)
    ensures Highest(stored, []) == stored && Taken([], limit) == [] && Ids([]) == {}
  {
  }

  /** What the next document adds to the highest time and to the documents taken. */
  lemma OneMoreDoc(stored: int, docs: seq<Doc>, i: nat, limit: int)
    requires i < |docs|
    ensures
      var d, highest := docs[i], Highest(stored, docs[..i]);
      Highest(stored, docs[..i + 1]) == if Named(d) && d.published > highest then d.published else highest
    ensures
      var d, taken, next := docs[i], Taken(docs[..i], limit), Taken(docs[..i + 1], limit);
      if Eligible(d) && (limit <= 0 || |taken| < limit)
      then |next| == |taken| + 1 && Ids(next) == Ids(taken) + {d.id} else next == taken
  {
    assert docs[..i + 1][..i] == docs[..i];
  }

  // ---- the watermark never moves back --------------------------------------------------

  /** Every document so far was published in a year the text can hold. */
  predicate Datable(docs: seq<Doc>) {
    forall i :: 0 <= i < |docs| && Named(docs[i]) ==> docs[i].published < END_OF_TEXT * SECOND
  }

  lemma {:induction false} HighestDatable(stored: int, docs: seq<Doc>)
    requires 0 <= stored
    ensures Highest(stored, docs) < END_OF_TEXT * SECOND <==> stored < END_OF_TEXT * SECOND && Datable(docs)
  {
    if docs != [] {
      var m := |docs| - 1;
      HighestDatable(stored, docs[..m]);
      assert Datable(docs) <==> Datable(docs[..m]) && (Named(docs[m]) ==> docs[m].published < END_OF_TEXT * SECOND) by {
        assert forall i :: 0 <= i < m ==> docs[..m][i] == docs[i];
      }
    }
  }

  lemma WatermarkRange(c: Cursor)
    ensures 0 <= Watermark(c) < END_OF_TEXT * SECOND && Watermark(c) % SECOND == 0
  {
  }

  lemma WrittenReads(t: int)
    requires 0 <= t
    ensures t < END_OF_TEXT * SECOND ==> Watermark(Written(t)) == t - t % SECOND
    ensures t >= END_OF_TEXT * SECOND ==> Watermark(Written(t)) == 0
  {
  }

  /** A complete run leaves the highest time it saw, in whole seconds, exactly when every time can be written. */
  lemma WatermarkAfter(s: State, run: Run)
    requires Outcome(run) == None
    ensures
      var top := Highest(Watermark(s.cursor), run.docs);
      Watermark(After(s, run).cursor) == if Datable(run.docs) then top - top % SECOND else 0
  {
    WatermarkRange(s.cursor);
    HighestDatable(Watermark(s.cursor), run.docs);
    WrittenReads(Highest(Watermark(s.cursor), run.docs));
  }

  /** No run moves the watermark back, unless it had one and saw a document dated past the year 9999. */
  lemma NeverMovesBack(s: State, run: Run)
    ensures Watermark(After(s, run).cursor) >= Watermark(s.cursor)
      <==> Outcome(run) != None || Datable(run.docs) || Watermark(s.cursor) == 0
    ensures Outcome(run) != None ==> After(s, run).cursor == s.cursor
  {
    WatermarkRange(s.cursor);
    if Outcome(run) == None {
      WatermarkAfter(s, run);
      var top := Highest(Watermark(s.cursor), run.docs);
      assert top - top % SECOND >= Watermark(s.cursor) by {
        WholeSeconds(Watermark(s.cursor), top);
      }
    }
  }

  lemma WholeSeconds(a: int, b: int)
    requires a <= b && a % SECOND == 0
    ensures a <= b - b % SECOND
  {
    assert a == SECOND * (a / SECOND) && b - b % SECOND == SECOND * (b / SECOND);
  }

  /** A run succeeds exactly when its feed was complete and none of the writes it came to failed. */
  lemma SucceedsIff(run: Run)
    ensures Outcome(run) == None <==>
      && !run.feedFails && !run.cursorFails
      && forall k: nat :: run.recordFailsAt == Some(k) && k < |run.docs| ==> !FailsAt(run, k)
    ensures Outcome(run) == Some(NothingFound) <==> run.feedFails && run.docs == []
    ensures Outcome(run) == Some(CursorFailed) ==> !run.feedFails && run.cursorFails
  {
  }

  /** The highest time is the stored one or that of a named document, and none is higher. */
  lemma {:induction false} HighestIs(stored: int, docs: seq<Doc>)
    ensures forall d :: d in docs && Named(d) ==> d.published <= Highest(stored, docs)
    ensures Highest(stored, docs) == stored || exists d :: d in docs && Named(d) && d.published == Highest(stored, docs)
  {
    if docs != [] {
      var m := |docs| - 1;
      HighestIs(stored, docs[..m]);
      assert docs == docs[..m] + [docs[m]];
      assert docs[m] in docs && forall d :: d in docs[..m] ==> d in docs;
    }
  }

  // ---- nothing visible in time is lost -------------------------------------------------

  lemma {:induction false} TakenAll(docs: seq<Doc>, i: nat)
    requires i < |docs| && Eligible(docs[i])
    ensures docs[i] in Taken(docs, 0)
  {
    if i < |docs| - 1 {
      TakenAll(docs[..|docs| - 1], i);
    }
  }

  lemma {:induction false} TakenFrom(docs: seq<Doc>, limit: int, d: Doc)
    requires d in Taken(docs, limit)
    ensures d in docs && Eligible(d)
  {
    if docs != [] {
      if d in Taken(docs[..|docs| - 1], limit) { TakenFrom(docs[..|docs| - 1], limit, d); }
    }
  }

  /** A complete feed holds every visible document its query reaches. */
  ghost predicate FeedCovers(visible: set<Doc>, since: int, run: Run) {
    !run.feedFails ==> forall d :: d in visible && Reaches(since, d.published) ==> d in run.docs
  }

  /** A history of runs from one state, each with the documents visible to it. */
  ghost predicate History(s: State, runs: seq<Run>, visible: seq<set<Doc>>)
    requires |runs| == |visible|
    decreases |runs|
  {
    runs != [] ==>
      && FeedCovers(visible[0], Since(Watermark(s.cursor), runs[0].fullScan), runs[0])
      && History(After(s, runs[0]), runs[1..], visible[1..])
  }

  function AfterAll(s: State, runs: seq<Run>): State
    decreases |runs|
  {
    if runs == [] then s else AfterAll(After(s, runs[0]), runs[1..])
  }

  lemma {:induction false} RecordedStays(s: State, runs: seq<Run>)
    ensures s.recorded <= AfterAll(s, runs).recorded
    decreases |runs|
  {
    if runs != [] { RecordedStays(After(s, runs[0]), runs[1..]); }
  }

  lemma {:induction false} WatermarkOnlyGrows(s: State, runs: seq<Run>)
    requires forall i :: 0 <= i < |runs| ==> Datable(runs[i].docs)
    ensures Watermark(AfterAll(s, runs).cursor) >= Watermark(s.cursor)
    decreases |runs|
  {
    if runs != [] {
      NeverMovesBack(s, runs[0]);
      WatermarkOnlyGrows(After(s, runs[0]), runs[1..]);
    }
  }

  lemma {:induction false} TakenUpTo(docs: seq<Doc>, limit: int)
    ensures |Taken(docs, 0)| >= |Taken(docs, limit)|
    ensures limit > 0 ==> |Taken(docs, limit)| == if |Taken(docs, 0)| <= limit then |Taken(docs, 0)| else limit
    ensures limit <= 0 || |Taken(docs, 0)| <= limit ==> Taken(docs, limit) == Taken(docs, 0)
  {
    if docs != [] { TakenUpTo(docs[..|docs| - 1], limit); }
  }

  /** The limit leaves nothing out: it is not positive, or the eligible documents are no more than it. */
  predicate LimitSpares(run: Run) { run.limit <= 0 || |Taken(run.docs, 0)| <= run.limit }

  /** A run takes every eligible document exactly when its limit spares them all. */
  lemma TakesAllIff(docs: seq<Doc>, limit: int)
    ensures Taken(docs, limit) == Taken(docs, 0) <==> limit <= 0 || |Taken(docs, 0)| <= limit
  {
    TakenUpTo(docs, limit);
  }

  lemma CompleteRunRecords(s: State, run: Run, d: Doc)
    requires Outcome(run) == None && LimitSpares(run) && d in run.docs && Eligible(d)
    ensures d.id in After(s, run).recorded
  {
    var i :| 0 <= i < |run.docs| && run.docs[i] == d;
    TakenAll(run.docs, i);
    TakesAllIff(run.docs, run.limit);
    assert d in Taken(Handled(run), run.limit);
  }

  /** Whether a document's time is still within the overlap of the watermark. */
  predicate InTime(s: State, d: Doc) {
    Watermark(s.cursor) == 0 || d.published >= Watermark(s.cursor) - OVERLAP
  }

  /**
    A document that is visible before the watermark has passed its publish time by the
    overlap is recorded by the next complete run, however many runs fail before it, if
    the limit of that run spares its documents, and stays recorded.
   */
  lemma {:induction false} VisibleInTimeIsRecorded(s: State, runs: seq<Run>, visible: seq<set<Doc>>, d: Doc, next: nat)
    requires |runs| == |visible| && History(s, runs, visible) && next < |runs|
    requires d.id != "" && !d.dropped && d.inScope && (forall i :: 0 <= i <= next ==> d in visible[i])
    requires InTime(s, d) || runs[next].fullScan
    requires Outcome(runs[next]) == None && LimitSpares(runs[next])
    requires forall i :: 0 <= i < next ==> Outcome(runs[i]) != None
    ensures d.id in AfterAll(s, runs).recorded
    decreases |runs|
  {
    var after := After(s, runs[0]);
    if next == 0 {
      CompleteRunRecords(s, runs[0], d);
      RecordedStays(after, runs[1..]);
    } else {
      assert after.cursor == s.cursor;
      assert forall i :: 0 <= i < next ==> runs[1..][i] == runs[i + 1] && visible[1..][i] == visible[i + 1];
      VisibleInTimeIsRecorded(after, runs[1..], visible[1..], d, next - 1);
    }
  }

  /** Only eligible documents of the feed are ever added. */
  lemma OnlyEligibleRecorded(s: State, run: Run, id: string)
    requires id in After(s, run).recorded && id !in s.recorded
    ensures exists d :: d in run.docs && !d.dropped && d.inScope && d.id != "" && d.id == id
  {
    var d :| d in Taken(Handled(run), run.limit) && d.id == id;
    TakenFrom(Handled(run), run.limit, d);
    assert d in run.docs;
  }

  function WholeSecond(t: int): int { t - t % SECOND }

  /**
    After a complete run with datable documents, the next query no longer reaches a
    document exactly when it was published more than the overlap before the newest one,
    in whole seconds. What the limit skipped beyond that is left to a full scan.
   */
  lemma PassedByIff(s: State, run: Run, d: Doc)
    requires Outcome(run) == None && Datable(run.docs) && d.published >= 0
    ensures
      var top := WholeSecond(Highest(Watermark(s.cursor), run.docs));
      !Reaches(Since(Watermark(After(s, run).cursor), false), d.published) <==> d.published < top - OVERLAP
  {
    WatermarkRange(s.cursor);
    WatermarkAfter(s, run);
  }

  /** Once passed by, a document stays out of reach of every later query but a full scan. */
  lemma PassedByForever(s: State, runs: seq<Run>, d: Doc)
    requires d.published >= 0 && !Reaches(Since(Watermark(s.cursor), false), d.published)
    requires forall i :: 0 <= i < |runs| ==> Datable(runs[i].docs)
    ensures !Reaches(Since(Watermark(AfterAll(s, runs).cursor), false), d.published)
  {
    WatermarkOnlyGrows(s, runs);
  }

  /** With a positive limit the cursor passes documents the limit skipped, and the next run no longer asks for them. */
  lemma LimitLosesDocuments()
    ensures
      var newer, older := Doc("newer", 300 * 3600 * SECOND, false, true), Doc("older", 100 * 3600 * SECOND, false, true);
      var run := Run([newer, older], false, false, 1, None, false);
      var s := After(State(Missing, {}), run);
      && Outcome(run) == None && older.id !in s.recorded
      && !Reaches(Since(Watermark(s.cursor), false), older.published)
  {
    var newer, older := Doc("newer", 300 * 3600 * SECOND, false, true), Doc("older", 100 * 3600 * SECOND, false, true);
    var docs := [newer, older];
    assert docs[..1] == [newer] && [newer][..0] == [];
    assert Taken([newer], 1) == [newer] && Taken(docs, 1) == [newer];
    assert Highest(0, [newer]) == newer.published && Highest(0, docs) == newer.published;
  }
}
