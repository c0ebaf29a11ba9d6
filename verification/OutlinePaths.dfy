/**
  Citation paths. A new node takes its wanted segment, or the first numbered variant no
  sibling uses; from that alone no two nodes of a tree ever share a path.
 */
module OutlinePaths {
  import opened Prelude
  import opened Strings
  import opened OutlineTree

  // ---- numbered variants ---------------------------------------------------------------

  /** The segment itself, then `seg-2`, `seg-3` and so on. */
  function Variant(seg: string, n: nat): string { if n <= 1 then seg else seg + "-" + Itoa(n) }

  lemma VariantsDiffer(seg: string, a: nat, b: nat)
    requires 1 <= a < b
    ensures Variant(seg, a) != Variant(seg, b)
  {
    if Variant(seg, a) == Variant(seg, b) {
      assert |Variant(seg, b)| > |seg|;
      var skip := |seg| + 1;
      assert Variant(seg, a)[skip..] == Itoa(a) && Variant(seg, b)[skip..] == Itoa(b);
      ItoaInjective(a, b);
    }
  }

  function SegmentsOf(nodes: seq<Node>, children: seq<nat>): (segs: set<string>)
    requires forall k :: 0 <= k < |children| ==> children[k] < |nodes|
    ensures forall seg :: seg in segs <==> TakenBy(nodes, children, seg)
  {
    set k | 0 <= k < |children| :: LastSegment(nodes[children[k]].path)
  }

  lemma {:induction false} FewSegments(nodes: seq<Node>, children: seq<nat>)
    requires forall k :: 0 <= k < |children| ==> children[k] < |nodes|
    ensures |SegmentsOf(nodes, children)| <= |children|
  {
    hide LastSegment;
    if children != [] {
      var m := |children| - 1;
      FewSegments(nodes, children[..m]);
      var before, last := SegmentsOf(nodes, children[..m]), LastSegment(nodes[children[m]].path);
      forall seg | seg in SegmentsOf(nodes, children)
        ensures seg in before + {last}
      {
        var k :| 0 <= k < |children| && LastSegment(nodes[children[k]].path) == seg;
        if k < m { assert children[..m][k] == children[k]; }
      }
      SubsetSize(SegmentsOf(nodes, children), before + {last});
    }
  }

  function VariantsUpTo(seg: string, n: nat): (variants: set<string>)
    ensures |variants| == n
    ensures forall s :: s in variants <==> exists i :: 1 <= i <= n && s == Variant(seg, i)
  {
    if n == 0 then {} else
      var before := VariantsUpTo(seg, n - 1);
      assert Variant(seg, n) !in before by {
        forall i | 1 <= i < n
          ensures Variant(seg, i) != Variant(seg, n)
        {
          VariantsDiffer(seg, i, n);
        }
      }
      before + {Variant(seg, n)}
  }

  /** With more variants tried than there are siblings, one of them was free. */
  lemma SomeVariantIsFree(nodes: seq<Node>, children: seq<nat>, seg: string, n: nat)
    requires forall k :: 0 <= k < |children| ==> children[k] < |nodes|
    requires forall i :: 1 <= i <= n ==> TakenBy(nodes, children, Variant(seg, i))
    ensures n <= |children|
  {
    var tried, taken := VariantsUpTo(seg, n), SegmentsOf(nodes, children);
    assert tried <= taken;
    SubsetSize(tried, taken);
    FewSegments(nodes, children);
  }

  /** The first variant of `seg`, from the n-th on, that no sibling uses. */
  function FirstFree(nodes: seq<Node>, children: seq<nat>, seg: string, n: nat): (chosen: string)
    requires forall k :: 0 <= k < |children| ==> children[k] < |nodes|
    requires n >= 1 && forall i :: 1 <= i < n ==> TakenBy(nodes, children, Variant(seg, i))
    ensures !TakenBy(nodes, children, chosen) && exists m :: m >= n && chosen == Variant(seg, m)
    decreases |children| + 1 - n
  {
    if !TakenBy(nodes, children, Variant(seg, n)) then Variant(seg, n) else
      SomeVariantIsFree(nodes, children, seg, n);
      FirstFree(nodes, children, seg, n + 1)
  }

  method UniqueSegment(nodes: seq<Node>, children: seq<nat>, seg: string) returns (chosen: string)
    requires forall k :: 0 <= k < |children| ==> children[k] < |nodes|
    ensures chosen == FirstFree(nodes, children, seg, 1)
  {
    if !TakenBy(nodes, children, seg) { return seg; }
    var n := 2;
    chosen := seg + "-" + Itoa(n);
    while TakenBy(nodes, children, chosen)
      invariant n >= 2 && chosen == Variant(seg, n)
      invariant forall i :: 1 <= i < n ==> TakenBy(nodes, children, Variant(seg, i))
      invariant FirstFree(nodes, children, seg, 1) == FirstFree(nodes, children, seg, n)
      decreases |children| + 2 - n
    {
      SomeVariantIsFree(nodes, children, seg, n);
      n := n + 1;
      chosen := seg + "-" + Itoa(n);
    }
  }

  // ---- unique paths --------------------------------------------------------------------

  predicate Plain(seg: string) { seg != "" && '/' !in seg }

  lemma {:induction false} LastOfExtended(path: string, seg: string)
    requires '/' !in seg && (path == "" || path[|path| - 1] == '/')
    ensures LastSegment(path + seg) == seg
  {
    if seg == "" {
      assert path + seg == path;
    } else {
      var m := |seg| - 1;
      assert (path + seg)[..|path + seg| - 1] == path + seg[..m];
      LastOfExtended(path, seg[..m]);
    }
  }

  lemma LastOfPath(path: string, seg: string)
    requires Plain(seg)
    ensures LastSegment(Extended(path, seg)) == seg
  {
    if path == "" {
      LastOfExtended("", seg);
      assert "" + seg == seg;
    } else {
      LastOfExtended(path + "/", seg);
    }
  }

  lemma {:induction false} PlainItoa(n: nat)
    ensures '/' !in Itoa(n)
  {
    if n >= 10 { PlainItoa(n / 10); }
  }

  lemma PlainVariant(seg: string, n: nat)
    requires Plain(seg)
    ensures Plain(Variant(seg, n))
  {
    PlainItoa(n);
  }

  predicate PathOk(nodes: seq<Node>, n: nat)
    requires n < |nodes|
  {
    && nodes[n].parent < |nodes|
    && Plain(LastSegment(nodes[n].path))
    && nodes[n].path == Extended(nodes[nodes[n].parent].path, LastSegment(nodes[n].path))
  }

  ghost predicate UniquePaths(nodes: seq<Node>) {
    && nodes != [] && nodes[0].path == ""
    && (forall n :: 0 < n < |nodes| ==> PathOk(nodes, n))
    && (forall m, n :: 0 <= m < n < |nodes| ==> nodes[m].path != nodes[n].path)
  }

  lemma ExtendedInjective(p: string, q: string, seg: string)
    requires Extended(p, seg) == Extended(q, seg)
    ensures p == q
  {
    assert |p| == |q|;
    if p != "" { assert Extended(p, seg)[..|p|] == p && Extended(q, seg)[..|q|] == q; }
  }

  /** The new path differs from each earlier one: same segment would mean same parent, and siblings differ. */
  lemma NewPathDiffers(t: Tree, level: int, seg: string, n: nat)
    requires Outline(t) && UniquePaths(t.nodes) && n < |t.nodes| && Plain(seg)
    requires !TakenBy(t.nodes, t.nodes[ParentFor(t, level)].children, seg)
    ensures t.nodes[n].path != Extended(t.nodes[ParentFor(t, level)].path, seg)
  {
    var parent := ParentFor(t, level);
    if n > 0 && t.nodes[n].path == Extended(t.nodes[parent].path, seg) {
      LastOfPath(t.nodes[parent].path, seg);
      var other := t.nodes[n].parent;
      assert PathOk(t.nodes, n) && NearestShallower(t.nodes, n) && ListsChildren(t.nodes, other);
      assert n in t.nodes[other].children;
      ExtendedInjective(t.nodes[other].path, t.nodes[parent].path, seg);
    }
  }

  lemma OneMorePath(before: seq<Node>, after: seq<Node>, parent: nat, seg: string)
    requires UniquePaths(before) && |after| == |before| + 1 && parent < |before| && Plain(seg)
    requires forall n :: 0 <= n < |before| ==> after[n].path == before[n].path && after[n].parent == before[n].parent
    requires after[|before|].parent == parent && after[|before|].path == Extended(before[parent].path, seg)
    requires forall n :: 0 <= n < |before| ==> before[n].path != after[|before|].path
    ensures UniquePaths(after)
  {
    hide Extended, LastSegment;
    LastOfPath(before[parent].path, seg);
    forall n | 0 < n < |after|
      ensures PathOk(after, n)
    {
      if n < |before| { assert PathOk(before, n); }
    }
  }

  lemma OpenedKeepsPaths(t: Tree, kind: Kind, name: string, level: int, seg: string)
    requires Outline(t) && UniquePaths(t.nodes) && level >= 0 && Plain(seg)
    requires !TakenBy(t.nodes, t.nodes[ParentFor(t, level)].children, seg)
    ensures UniquePaths(Opened(t, kind, name, level, seg).nodes)
  {
    var after, parent := Opened(t, kind, name, level, seg), ParentFor(t, level);
    hide Closed, CountKind, LastSegment, Outline, UniquePaths, TakenBy, Extended, Plain;
    forall n | 0 <= n < |t.nodes|
      ensures t.nodes[n].path != Extended(t.nodes[parent].path, seg)
    {
      NewPathDiffers(t, level, seg, n);
    }
    OneMorePath(t.nodes, after.nodes, parent, seg);
  }

  lemma SamePathsStayUnique(before: seq<Node>, after: seq<Node>)
    requires UniquePaths(before) && |after| == |before|
    requires forall n :: 0 <= n < |before| ==> after[n].path == before[n].path && after[n].parent == before[n].parent
    ensures UniquePaths(after)
  {
    forall n | 0 < n < |after|
      ensures PathOk(after, n)
    {
      assert PathOk(before, n);
    }
  }
}
