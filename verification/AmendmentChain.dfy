/**
  The transitive amendment lineage of a document: a recursive query that follows
  amending relations backwards, with a path guard against cycles and a depth cap.
  Shown for every graph: it lists exactly the documents within the cap's number of
  amending steps, the least depth listed is the distance, and it stops by itself.
 */
module AmendmentChain {
  import opened Prelude

  const DEPTH_CAP: nat := 4

  /** `from` treats the document behind a reference in the way `kind` says. */
  datatype Relation = Relation(from: int, toRef: int, kind: string)

  datatype Graph = Graph(
    refs: map<int, int>, relations: seq<Relation>, amendingKinds: set<string>, documents: set<int>)

  /** One row of the recursive query: the amenders from the base's own to the newest found. */
  datatype Row = Row(path: seq<int>, kind: string)

  datatype ChainNode = ChainNode(depth: nat, documentId: int, kind: string)

  predicate Amends(g: Graph, r: Relation, target: int) {
    r.toRef in g.refs && g.refs[r.toRef] == target && r.kind in g.amendingKinds
  }

  // ---- the query -----------------------------------------------------------------------

  /** The document a row's next amender must treat. */
  function Target(base: int, path: seq<int>): int { if path == [] then base else path[|path| - 1] }

  /** The first `k` relations joined to one row, behind the path guard. */
  function Joined(g: Graph, base: int, path: seq<int>, k: nat): seq<Row>
    requires k <= |g.relations|
  {
    if k == 0 then [] else
      var r, before := g.relations[k - 1], Joined(g, base, path, k - 1);
      if Amends(g, r, Target(base, path)) && r.from !in path && r.from != base
      then before + [Row(path + [r.from], r.kind)] else before
  }

  function Extended(g: Graph, base: int, rows: seq<Row>): seq<Row> {
    if rows == [] then []
    else Extended(g, base, rows[..|rows| - 1]) + Joined(g, base, rows[|rows| - 1].path, |g.relations|)
  }

  /** The rows of one depth: the anchor first, then each from the one before. */
  function Level(g: Graph, base: int, depth: nat): seq<Row>
    requires depth >= 1
  {
    if depth == 1 then Joined(g, base, [], |g.relations|) else Extended(g, base, Level(g, base, depth - 1))
  }

  function Chain(g: Graph, base: int, cap: nat): seq<Row> {
    if cap == 0 then [] else Chain(g, base, cap - 1) + Level(g, base, cap)
  }

  /** The distinct listed nodes; a row whose document is unknown drops out of the join. */
  function Lineage(g: Graph, base: int, cap: nat): set<ChainNode> {
    set row | row in Chain(g, base, cap) && row.path != [] && row.path[|row.path| - 1] in g.documents ::
      ChainNode(|row.path|, row.path[|row.path| - 1], row.kind)
  }

  // ---- what the rows are ---------------------------------------------------------------

  /** A relation of an amending kind leads from one document to a reference of the other. */
  predicate EdgeOf(g: Graph, from: int, to: int, kind: string) {
    exists k :: 0 <= k < |g.relations|
      && g.relations[k].from == from && g.relations[k].kind == kind && kind in g.amendingKinds
      && g.relations[k].toRef in g.refs && g.refs[g.relations[k].toRef] == to
  }

  ghost predicate Edge(g: Graph, from: int, to: int) { exists kind :: EdgeOf(g, from, to, kind) }

  /** Each amender treats the one before it, the first treats the base; no repeats, never the base. */
  ghost predicate SimplePath(g: Graph, base: int, path: seq<int>) {
    path != [] ==>
      var last, before := path[|path| - 1], path[..|path| - 1];
      SimplePath(g, base, before) && last !in before && last != base && Edge(g, last, Target(base, before))
  }

  ghost predicate RowOk(g: Graph, base: int, row: Row) {
    && row.path != [] && SimplePath(g, base, row.path)
    && EdgeOf(g, row.path[|row.path| - 1], Target(base, row.path[..|row.path| - 1]), row.kind)
  }

  lemma {:induction false} JoinedIff(g: Graph, base: int, path: seq<int>, k: nat, row: Row)
    requires k <= |g.relations|
    ensures row in Joined(g, base, path, k) <==>
      exists i :: JoinsAt(g, base, path, k, row, i)
  {
    if k > 0 {
      JoinedIff(g, base, path, k - 1, row);
      var r, rest := g.relations[k - 1], Joined(g, base, path, k - 1);
      if row in Joined(g, base, path, k) {
        if row in rest {
          var i :| JoinsAt(g, base, path, k - 1, row, i);
          assert JoinsAt(g, base, path, k, row, i);
        } else {
          assert JoinsAt(g, base, path, k, row, k - 1);
        }
      }
      if i :| JoinsAt(g, base, path, k, row, i) {
        if i < k - 1 { assert JoinsAt(g, base, path, k - 1, row, i); }
      }
    }
  }

  predicate JoinsAt(g: Graph, base: int, path: seq<int>, k: nat, row: Row, i: int) {
    && 0 <= i < k <= |g.relations|
    && row == Row(path + [g.relations[i].from], g.relations[i].kind)
    && Amends(g, g.relations[i], Target(base, path))
    && g.relations[i].from !in path && g.relations[i].from != base
  }

  lemma {:induction false} ExtendedIff(g: Graph, base: int, rows: seq<Row>, row: Row)
    ensures row in Extended(g, base, rows) <==>
      exists k :: 0 <= k < |rows| && row in Joined(g, base, rows[k].path, |g.relations|)
  {
    if rows != [] {
      var m := |rows| - 1;
      ExtendedIff(g, base, rows[..m], row);
      if row in Extended(g, base, rows[..m]) {
        var k :| 0 <= k < m && row in Joined(g, base, rows[..m][k].path, |g.relations|);
        assert row in Joined(g, base, rows[k].path, |g.relations|);
      }
      if k :| 0 <= k < |rows| && row in Joined(g, base, rows[k].path, |g.relations|) {
        if k < m { assert rows[..m][k] == rows[k]; }
      }
    }
  }

  /** Joining extends a simple path by one amender, in every possible way. */
  lemma JoinedRows(g: Graph, base: int, path: seq<int>, row: Row)
    requires SimplePath(g, base, path)
    ensures row in Joined(g, base, path, |g.relations|) <==>
      |row.path| == |path| + 1 && row.path[..|path|] == path && RowOk(g, base, row)
  {
    JoinedIff(g, base, path, |g.relations|, row);
    if i :| JoinsAt(g, base, path, |g.relations|, row, i) {
      assert row.path[..|path|] == path;
      assert EdgeOf(g, g.relations[i].from, Target(base, path), row.kind);
    }
    if |row.path| == |path| + 1 && row.path[..|path|] == path && RowOk(g, base, row) {
      var last := row.path[|path|];
      var k :| 0 <= k < |g.relations|
        && g.relations[k].from == last && g.relations[k].kind == row.kind
        && Amends(g, g.relations[k], Target(base, path));
      assert row.path == path + [last];
      assert JoinsAt(g, base, path, |g.relations|, row, k);
    }
  }

  lemma {:induction false} LevelSound(g: Graph, base: int, depth: nat, row: Row)
    requires depth >= 1 && row in Level(g, base, depth)
    ensures |row.path| == depth && RowOk(g, base, row)
    decreases depth
  {
    if depth == 1 {
      JoinedRows(g, base, [], row);
    } else {
      var rows := Level(g, base, depth - 1);
      ExtendedIff(g, base, rows, row);
      var k :| 0 <= k < |rows| && row in Joined(g, base, rows[k].path, |g.relations|);
      LevelSound(g, base, depth - 1, rows[k]);
      JoinedRows(g, base, rows[k].path, row);
    }
  }

  lemma {:induction false} LevelComplete(g: Graph, base: int, depth: nat, row: Row)
    requires depth >= 1 && |row.path| == depth && RowOk(g, base, row)
    ensures row in Level(g, base, depth)
    decreases depth
  {
    if depth == 1 {
      JoinedRows(g, base, [], row);
    } else {
      var path, rows := row.path[..depth - 1], Level(g, base, depth - 1);
      var kind := LastKind(g, base, row, depth);
      hide RowOk, SimplePath, Joined, Extended;
      LevelComplete(g, base, depth - 1, Row(path, kind));
      JoinedRows(g, base, path, row);
      var k :| 0 <= k < |rows| && rows[k] == Row(path, kind);
      ExtendedIff(g, base, rows, row);
    }
  }

  /** A row is listed at a depth exactly when it is a simple path of that length with a kind of its last step. */
  lemma LevelIff(g: Graph, base: int, depth: nat, row: Row)
    requires depth >= 1
    ensures row in Level(g, base, depth) <==> |row.path| == depth && RowOk(g, base, row)
  {
    if row in Level(g, base, depth) { LevelSound(g, base, depth, row); }
    if |row.path| == depth && RowOk(g, base, row) { LevelComplete(g, base, depth, row); }
  }

  lemma LastKind(g: Graph, base: int, row: Row, depth: nat) returns (kind: string)
    requires depth >= 2 && |row.path| == depth && RowOk(g, base, row)
    ensures RowOk(g, base, Row(row.path[..depth - 1], kind))
    ensures SimplePath(g, base, row.path[..depth - 1])
  {
    var path := row.path[..depth - 1];
    assert SimplePath(g, base, path);
    kind :| EdgeOf(g, path[depth - 2], Target(base, path[..depth - 2]), kind);
  }

  lemma {:induction false} ChainIff(g: Graph, base: int, cap: nat, row: Row)
    ensures row in Chain(g, base, cap) <==> 1 <= |row.path| <= cap && RowOk(g, base, row)
  {
    if cap > 0 {
      ChainIff(g, base, cap - 1, row);
      LevelIff(g, base, cap, row);
    }
  }

  // ---- how often a row is listed ---------------------------------------------------------

  /** Rows with this path, of one kind or of any. */
  function Copies(rows: seq<Row>, path: seq<int>, kind: Option<string>): nat {
    if rows == [] then 0 else
      var m := |rows| - 1;
      Copies(rows[..m], path, kind) + if rows[m].path == path && (kind.None? || kind.value == rows[m].kind) then 1 else 0
  }

  /** Relations by which `from` amends `to`, among the first `k`. */
  function Relations(g: Graph, from: int, to: int, kind: Option<string>, k: nat): nat
    requires k <= |g.relations|
  {
    if k == 0 then 0 else
      var r := g.relations[k - 1];
      Relations(g, from, to, kind, k - 1)
      + if r.from == from && Amends(g, r, to) && (kind.None? || kind.value == r.kind) then 1 else 0
  }

  /** Choices of one relation for each step of a path that neither repeats a document nor meets the base. */
  function Choices(g: Graph, base: int, path: seq<int>, kind: Option<string>): nat {
    if path == [] then 1 else
      var last, before := path[|path| - 1], path[..|path| - 1];
      if last in before || last == base then 0
      else Times(Choices(g, base, before, None), Relations(g, last, Target(base, before), kind, |g.relations|))
  }

  function Times(n: nat, each: nat): nat { n * each }

  lemma OnceMore(n: nat, each: nat)
    ensures Times(n, each) + each == Times(n + 1, each) && Times(0, each) == 0
  {
  }

  lemma {:induction false} CopiesOfSum(a: seq<Row>, b: seq<Row>, path: seq<int>, kind: Option<string>)
    ensures Copies(a + b, path, kind) == Copies(a, path, kind) + Copies(b, path, kind)
  {
    if b == [] {
      assert a + b == a;
    } else {
      var m := |b| - 1;
      assert (a + b)[..|a + b| - 1] == a + b[..m];
      CopiesOfSum(a, b[..m], path, kind);
    }
  }

  lemma {:induction false} JoinedCopies(g: Graph, base: int, before: seq<int>, k: nat, path: seq<int>, kind: Option<string>)
    requires k <= |g.relations| && path != []
    ensures
      var last := path[|path| - 1];
      Copies(Joined(g, base, before, k), path, kind) ==
      if path[..|path| - 1] == before && last !in before && last != base
      then Relations(g, last, Target(base, before), kind, k) else 0
  {
    if k > 0 {
      JoinedCopies(g, base, before, k - 1, path, kind);
      var r, rest := g.relations[k - 1], Joined(g, base, before, k - 1);
      var row := Row(before + [r.from], r.kind);
      assert (rest + [row])[..|rest|] == rest;
      assert row.path == path <==> path[..|path| - 1] == before && path[|path| - 1] == r.from;
    }
  }

  lemma {:induction false} ExtendedCopies(g: Graph, base: int, rows: seq<Row>, path: seq<int>, kind: Option<string>)
    requires path != []
    ensures
      var last, before := path[|path| - 1], path[..|path| - 1];
      Copies(Extended(g, base, rows), path, kind) ==
      if last in before || last == base then 0
      else Times(Copies(rows, before, None), Relations(g, last, Target(base, before), kind, |g.relations|))
  {
    var last, before := path[|path| - 1], path[..|path| - 1];
    var n := |g.relations|;
    var steps := Relations(g, last, Target(base, before), kind, n);
    if rows == [] {
      OnceMore(0, steps);
    } else {
      var m := |rows| - 1;
      var a, b := Extended(g, base, rows[..m]), Joined(g, base, rows[m].path, n);
      assert Extended(g, base, rows) == a + b;
      assert Copies(rows, before, None) == Copies(rows[..m], before, None) + if rows[m].path == before then 1 else 0;
      ExtendedCopies(g, base, rows[..m], path, kind);
      hide Extended, Joined, Relations, Copies, Target, Times;
      JoinedCopies(g, base, rows[m].path, n, path, kind);
      CopiesOfSum(a, b, path, kind);
      OnceMore(Copies(rows[..m], before, None), steps);
    }
  }

  lemma OneChoice(g: Graph, base: int, path: seq<int>, kind: Option<string>)
    requires |path| == 1
    ensures Choices(g, base, path, kind) ==
      if path[0] == base then 0 else Relations(g, path[0], base, kind, |g.relations|)
  {
    assert path[..0] == [] && Choices(g, base, [], None) == 1;
  }

  /** Each depth lists a path once for every choice of one relation a step, the last of the row's kind. */
  lemma {:induction false} LevelCopies(g: Graph, base: int, depth: nat, path: seq<int>, kind: Option<string>)
    requires depth >= 1 && |path| == depth
    ensures Copies(Level(g, base, depth), path, kind) == Choices(g, base, path, kind)
    decreases depth
  {
    hide Joined, Extended, Relations, Copies, Times;
    if depth == 1 {
      OneChoice(g, base, path, kind);
      JoinedCopies(g, base, [], |g.relations|, path, kind);
    } else {
      LevelCopies(g, base, depth - 1, path[..depth - 1], None);
      ExtendedCopies(g, base, Level(g, base, depth - 1), path, kind);
    }
  }

  // ---- distances -----------------------------------------------------------------------

  /** `d` reaches `base` in `n` amending steps, by any route, cycles and the base included. */
  ghost predicate Steps(g: Graph, base: int, d: int, n: nat)
    decreases n
  {
    if n == 0 then d == base else exists m :: Edge(g, d, m) && Steps(g, base, m, n - 1)
  }

  ghost predicate Distance(g: Graph, base: int, d: int, n: nat) {
    Steps(g, base, d, n) && forall m: nat :: m < n ==> !Steps(g, base, d, m)
  }

  lemma {:induction false} PathReaches(g: Graph, base: int, path: seq<int>)
    requires SimplePath(g, base, path) && path != []
    ensures Steps(g, base, path[|path| - 1], |path|)
  {
    var before := path[..|path| - 1];
    if before != [] { PathReaches(g, base, before); }
    assert Edge(g, path[|path| - 1], Target(base, before)) && Steps(g, base, Target(base, before), |path| - 1);
  }

  /** A shortest route visits each document once, so the path guard never cuts it off. */
  lemma {:induction false} ShortestIsSimple(g: Graph, base: int, d: int, n: nat) returns (path: seq<int>)
    requires n >= 1 && Distance(g, base, d, n)
    ensures |path| == n && path[n - 1] == d && SimplePath(g, base, path)
    ensures forall i :: 0 <= i < n ==> Distance(g, base, path[i], i + 1)
    decreases n
  {
    var m :| Edge(g, d, m) && Steps(g, base, m, n - 1);
    forall k: nat | k < n - 1
      ensures !Steps(g, base, m, k)
    {
      assert !Steps(g, base, d, k + 1);
    }
    var before := [];
    if n > 1 { before := ShortestIsSimple(g, base, m, n - 1); }
    assert d !in before;
    assert d != base by { assert !Steps(g, base, d, 0); }
    path := before + [d];
    assert path[..n - 1] == before;
  }

  lemma {:induction false} DistanceExists(g: Graph, base: int, d: int, n: nat) returns (least: nat)
    requires Steps(g, base, d, n)
    ensures least <= n && Distance(g, base, d, least)
  {
    if m: nat :| m < n && Steps(g, base, d, m) {
      least := DistanceExists(g, base, d, m);
    } else {
      least := n;
    }
  }

  ghost predicate ListedAt(g: Graph, base: int, cap: nat, d: int, depth: nat) {
    exists kind :: ChainNode(depth, d, kind) in Lineage(g, base, cap)
  }

  lemma ListedIsReached(g: Graph, base: int, cap: nat, d: int, depth: nat)
    requires ListedAt(g, base, cap, d, depth)
    ensures d in g.documents && d != base && 1 <= depth <= cap && Steps(g, base, d, depth)
  {
    var kind :| ChainNode(depth, d, kind) in Lineage(g, base, cap);
    var row :| row in Chain(g, base, cap) && row.path != [] && row.path[|row.path| - 1] in g.documents
      && ChainNode(depth, d, kind) == ChainNode(|row.path|, row.path[|row.path| - 1], row.kind);
    ChainIff(g, base, cap, row);
    PathReaches(g, base, row.path);
  }

  lemma ReachedIsListed(g: Graph, base: int, cap: nat, d: int, n: nat)
    requires d in g.documents && d != base && n <= cap && Distance(g, base, d, n)
    ensures ListedAt(g, base, cap, d, n)
  {
    assert n >= 1;
    var path := ShortestIsSimple(g, base, d, n);
    var kind :| EdgeOf(g, d, Target(base, path[..n - 1]), kind);
    var row := Row(path, kind);
    ChainIff(g, base, cap, row);
    assert ChainNode(n, d, kind) in Lineage(g, base, cap);
  }

  ghost predicate Listed(g: Graph, base: int, cap: nat, d: int) {
    exists depth: nat :: ListedAt(g, base, cap, d, depth)
  }

  ghost predicate Within(g: Graph, base: int, cap: nat, d: int) {
    exists n: nat :: n <= cap && Steps(g, base, d, n)
  }

  /** The lineage lists a document exactly when it is not the base and lies within the cap. */
  lemma ListsExactlyTheLineage(g: Graph, base: int, cap: nat, d: int)
    ensures Listed(g, base, cap, d) <==> d in g.documents && d != base && Within(g, base, cap, d)
  {
    if Listed(g, base, cap, d) {
      var depth: nat :| ListedAt(g, base, cap, d, depth);
      ListedIsReached(g, base, cap, d, depth);
    }
    if d in g.documents && d != base && Within(g, base, cap, d) {
      var n: nat :| n <= cap && Steps(g, base, d, n);
      var least := DistanceExists(g, base, d, n);
      ReachedIsListed(g, base, cap, d, least);
    }
  }

  /** The least depth listed for a document is its distance from the base. */
  lemma LeastDepthIsDistance(g: Graph, base: int, cap: nat, d: int, depth: nat)
    requires ListedAt(g, base, cap, d, depth)
    ensures exists least: nat ::
      && least <= depth && Distance(g, base, d, least) && ListedAt(g, base, cap, d, least)
      && forall other :: ListedAt(g, base, cap, d, other) ==> least <= other
  {
    ListedIsReached(g, base, cap, d, depth);
    var least := DistanceExists(g, base, d, depth);
    ReachedIsListed(g, base, cap, d, least);
    forall other | ListedAt(g, base, cap, d, other)
      ensures least <= other
    {
      ListedIsReached(g, base, cap, d, other);
    }
  }

  // ---- the walk ends -------------------------------------------------------------------

  function Sources(relations: seq<Relation>): (froms: set<int>)
    ensures forall k :: 0 <= k < |relations| ==> relations[k].from in froms
    ensures |froms| <= |relations|
  {
    if relations == [] then {} else
      assert forall k :: 0 <= k < |relations| - 1 ==> relations[..|relations| - 1][k] == relations[k];
      Sources(relations[..|relations| - 1]) + {relations[|relations| - 1].from}
  }

  lemma {:induction false} PathFits(g: Graph, base: int, path: seq<int>)
    requires SimplePath(g, base, path)
    ensures |set d | d in path| == |path|
    ensures forall d :: d in path ==> d in Sources(g.relations)
  {
    if path != [] {
      var before, last := path[..|path| - 1], path[|path| - 1];
      PathFits(g, base, before);
      assert path == before + [last];
      assert (set d | d in path) == (set d | d in before) + {last};
      var kind :| EdgeOf(g, last, Target(base, before), kind);
    }
  }

  /** Even without the cap no path outgrows the amending documents, so the walk is finite on any graph. */
  lemma WalkEnds(g: Graph, base: int, depth: nat)
    requires depth > |g.relations|
    ensures Level(g, base, depth) == []
  {
    if Level(g, base, depth) != [] {
      var row := Level(g, base, depth)[0];
      LevelIff(g, base, depth, row);
      PathFits(g, base, row.path);
      forall d | d in row.path
        ensures d in Sources(g.relations)
      {
      }
      SubsetSize((set d | d in row.path), Sources(g.relations));
    }
  }

  // ---- the deepest level ---------------------------------------------------------------

  method ChainMaxDepth(chain: seq<ChainNode>) returns (maxDepth: nat)
    ensures forall k :: 0 <= k < |chain| ==> chain[k].depth <= maxDepth
    ensures maxDepth == 0 || exists k :: 0 <= k < |chain| && chain[k].depth == maxDepth
  {
    maxDepth := 0;
    for i := 0 to |chain|
      invariant forall k :: 0 <= k < i ==> chain[k].depth <= maxDepth
      invariant maxDepth == 0 || exists k :: 0 <= k < i && chain[k].depth == maxDepth
    {
      if chain[i].depth > maxDepth { maxDepth := chain[i].depth; }
    }
  }

  lemma {:induction false} FirstTwo(g: Graph, base: int, path: seq<int>)
    requires SimplePath(g, base, path) && |path| >= 2
    ensures path[0] != base && path[1] != base && path[1] != path[0]
    ensures Edge(g, path[0], base) && Edge(g, path[1], path[0])
  {
    var before := path[..|path| - 1];
    if |path| > 2 {
      FirstTwo(g, base, before);
    } else {
      assert before == [path[0]] && before[..0] == [];
      assert SimplePath(g, base, before) && path[0] in before;
    }
  }

  lemma DeepHasTwo(g: Graph, base: int, d: int, depth: nat)
    requires depth >= 2 && ListedAt(g, base, DEPTH_CAP, d, depth)
    ensures AmendedAmender(g, base)
  {
    var kind :| ChainNode(depth, d, kind) in Lineage(g, base, DEPTH_CAP);
    var row :| row in Chain(g, base, DEPTH_CAP) && row.path != [] && row.path[|row.path| - 1] in g.documents
      && ChainNode(depth, d, kind) == ChainNode(|row.path|, row.path[|row.path| - 1], row.kind);
    hide Chain, SimplePath, Edge;
    ChainIff(g, base, DEPTH_CAP, row);
    FirstTwo(g, base, row.path);
  }

  lemma TwoAreListed(g: Graph, base: int, m: int, d: int)
    requires m != base && d != base && d != m && Edge(g, m, base) && Edge(g, d, m) && d in g.documents
    ensures ListedAt(g, base, DEPTH_CAP, d, 2)
  {
    var path := [m, d];
    assert path[..1] == [m] && [m][..0] == [];
    assert SimplePath(g, base, []) && SimplePath(g, base, [m]) && SimplePath(g, base, path);
    var kind :| EdgeOf(g, d, m, kind);
    assert RowOk(g, base, Row(path, kind));
    hide Chain, SimplePath, Edge, RowOk;
    ChainIff(g, base, DEPTH_CAP, Row(path, kind));
    assert ChainNode(2, d, kind) in Lineage(g, base, DEPTH_CAP);
  }

  /** Some other document amends an amender of the base. */
  ghost predicate AmendedAmender(g: Graph, base: int) {
    exists m: int, d: int :: m != base && d != base && d != m && Edge(g, m, base) && Edge(g, d, m)
  }

  /** The chain is shown, with its warning, exactly when some other document amends an amender. */
  lemma DeepIff(g: Graph, base: int)
    requires forall k :: 0 <= k < |g.relations| ==> g.relations[k].from in g.documents
    ensures (exists d: int, depth: nat :: depth >= 2 && ListedAt(g, base, DEPTH_CAP, d, depth)) <==> AmendedAmender(g, base)
  {
    if d: int, depth: nat :| depth >= 2 && ListedAt(g, base, DEPTH_CAP, d, depth) {
      DeepHasTwo(g, base, d, depth);
    }
    if AmendedAmender(g, base) {
      var m: int, d: int :| m != base && d != base && d != m && Edge(g, m, base) && Edge(g, d, m);
      TwoAreListed(g, base, m, d);
    }
  }
}
