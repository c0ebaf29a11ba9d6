/**
  The tree a statute parser builds while it reads: nodes in creation order, each with
  its parent, children, level and path, and a stack of open nodes. Shown: the stack is
  the path to the newest node, the tree is the outline the levels dictate, pre-order is
  creation order, no two nodes share a citation path, and no text is lost or moved.
 */
module OutlineTree {
  datatype Kind = Root | Schedule | Chapter | Section | Subsection | Paragraph

  datatype Node = Node(
    kind: Kind, level: int, ordinal: nat, name: string, path: string,
    heading: string, content: string, parent: nat, children: seq<nat>)

  datatype Tree = Tree(nodes: seq<Node>, stack: seq<nat>)

  const EMPTY_TREE: Tree := Tree([Node(Root, -1, 0, "", "", "", "", 0, [])], [0])

  // ---- operations ----------------------------------------------------------------------

  /** The open nodes left after closing those at `level` or deeper; the root stays. */
  function Closed(nodes: seq<Node>, stack: seq<nat>, level: int): (left: seq<nat>)
    requires stack != [] && forall i :: 0 <= i < |stack| ==> stack[i] < |nodes|
    ensures left != [] && |left| <= |stack| && left == stack[..|left|]
  {
    if |stack| > 1 && nodes[stack[|stack| - 1]].level >= level then Closed(nodes, stack[..|stack| - 1], level) else stack
  }

  predicate InRange(t: Tree) {
    && t.stack != [] && t.nodes != []
    && (forall i :: 0 <= i < |t.stack| ==> t.stack[i] < |t.nodes|)
    && (forall n, k :: 0 <= n < |t.nodes| && 0 <= k < |t.nodes[n].children| ==> n < t.nodes[n].children[k] < |t.nodes|)
  }

  function Top(t: Tree): nat
    requires t.stack != []
  {
    t.stack[|t.stack| - 1]
  }

  /** The part of a path after its last slash. */
  function LastSegment(path: string): string {
    if path == "" then "" else
    if path[|path| - 1] == '/' then "" else LastSegment(path[..|path| - 1]) + [path[|path| - 1]]
  }

  predicate TakenBy(nodes: seq<Node>, children: seq<nat>, seg: string)
    requires forall k :: 0 <= k < |children| ==> children[k] < |nodes|
  {
    exists k :: 0 <= k < |children| && LastSegment(nodes[children[k]].path) == seg
  }

  function CountKind(nodes: seq<Node>, children: seq<nat>, kind: Kind): nat
    requires forall k :: 0 <= k < |children| ==> children[k] < |nodes|
  {
    if children == [] then 0 else
      CountKind(nodes, children[..|children| - 1], kind)
      + if nodes[children[|children| - 1]].kind == kind then 1 else 0
  }

  function Extended(path: string, seg: string): string { if path == "" then seg else path + "/" + seg }

  /** Opens a node under the nearest open node of a smaller level; `seg` is already unique there. */
  function Opened(t: Tree, kind: Kind, name: string, level: int, seg: string): Tree
    requires InRange(t)
  {
    var stack := Closed(t.nodes, t.stack, level);
    var parent := stack[|stack| - 1];
    var p := t.nodes[parent];
    var node := Node(
      kind, level, CountKind(t.nodes, p.children, kind) + 1, name, Extended(p.path, seg), "", "", parent, []);
    Tree(t.nodes[parent := p.(children := p.children + [|t.nodes|])] + [node], stack + [|t.nodes|])
  }

  /** The node a new one of this level would hang under. */
  function ParentFor(t: Tree, level: int): (parent: nat)
    requires InRange(t)
    ensures parent < |t.nodes|
  {
    var stack := Closed(t.nodes, t.stack, level);
    stack[|stack| - 1]
  }

  function Joined(content: string, s: string): string { if content != "" then content + "\n" + s else s }

  /** Text goes to the newest open node, and is dropped while only the root is open. */
  function WithText(t: Tree, s: string): Tree
    requires InRange(t)
  {
    var top := Top(t);
    if top == 0 then t
    else t.(nodes := t.nodes[top := t.nodes[top].(content := Joined(t.nodes[top].content, s))])
  }

  function WithHeading(t: Tree, h: string): Tree
    requires InRange(t)
  {
    var top := Top(t);
    if top == 0 then t else t.(nodes := t.nodes[top := t.nodes[top].(heading := h)])
  }

  // ---- the outline ---------------------------------------------------------------------

  /** A node's parent is the nearest earlier node of a smaller level. */
  predicate NearestShallower(nodes: seq<Node>, n: nat)
    requires n < |nodes|
  {
    && nodes[n].parent < n
    && nodes[nodes[n].parent].level < nodes[n].level
    && forall m :: nodes[n].parent < m < n ==> nodes[m].level >= nodes[n].level
  }

  /** The children of a node are exactly the nodes that name it as parent, in creation order. */
  predicate ListsChildren(nodes: seq<Node>, n: nat)
    requires n < |nodes|
  {
    && (forall j, k :: 0 <= j < k < |nodes[n].children| ==> nodes[n].children[j] < nodes[n].children[k])
    && (forall k :: 0 <= k < |nodes[n].children| ==>
          n < nodes[n].children[k] < |nodes| && nodes[nodes[n].children[k]].parent == n)
    && (forall m :: 0 < m < |nodes| && nodes[m].parent == n ==> m in nodes[n].children)
  }

  /** The stack leads from the root to the newest node. */
  predicate StackIsPath(t: Tree) {
    && t.stack != [] && t.stack[0] == 0
    && Top(t) == |t.nodes| - 1
    && (forall i :: 0 <= i < |t.stack| ==> t.stack[i] < |t.nodes|)
    && (forall i :: 0 < i < |t.stack| ==> 0 < t.stack[i] && t.nodes[t.stack[i]].parent == t.stack[i - 1])
  }

  ghost predicate Outline(t: Tree) {
    && InRange(t) && StackIsPath(t)
    && t.nodes[0].level == -1
    && (forall n :: 0 < n < |t.nodes| ==> NearestShallower(t.nodes, n))
    && (forall n :: 0 <= n < |t.nodes| ==> ListsChildren(t.nodes, n))
  }

  lemma EmptyOutline()
    ensures Outline(EMPTY_TREE)
  {
  }

  /** The open nodes have strictly increasing levels. */
  lemma {:induction false} StackLevels(t: Tree, i: nat, j: nat)
    requires Outline(t) && i < j < |t.stack|
    ensures t.stack[i] < t.stack[j] && t.nodes[t.stack[i]].level < t.nodes[t.stack[j]].level
  {
    assert NearestShallower(t.nodes, t.stack[j]);
    if i < j - 1 { StackLevels(t, i, j - 1); }
  }

  /** Each open node is the last child of the one before it. */
  lemma StackIsRightmost(t: Tree, i: nat)
    requires Outline(t) && i + 1 < |t.stack|
    ensures
      var children := t.nodes[t.stack[i]].children;
      children != [] && children[|children| - 1] == t.stack[i + 1]
  {
    var n, c := t.stack[i], t.stack[i + 1];
    assert ListsChildren(t.nodes, n) && c in t.nodes[n].children;
    var last := t.nodes[n].children[|t.nodes[n].children| - 1];
    if last > c {
      LaterAreInside(t, i + 1, last);
      assert false;
    }
  }

  /** Nodes made after an open node lie deeper than it, so none of them is its sibling. */
  lemma {:induction false} LaterAreInside(t: Tree, i: nat, m: nat)
    requires Outline(t) && 0 < i < |t.stack| && t.stack[i] < m < |t.nodes|
    ensures t.nodes[m].level > t.nodes[t.stack[i]].level
    ensures t.nodes[m].parent >= t.stack[i]
    decreases |t.stack| - i
  {
    assert i + 1 < |t.stack|;
    var next := t.stack[i + 1];
    assert NearestShallower(t.nodes, next) && t.nodes[next].parent == t.stack[i];
    if m > next { LaterAreInside(t, i + 1, m); }
    assert NearestShallower(t.nodes, m);
  }

  lemma {:induction false} ClosedStops(nodes: seq<Node>, stack: seq<nat>, level: int)
    requires stack != [] && forall i :: 0 <= i < |stack| ==> stack[i] < |nodes|
    ensures
      var left := Closed(nodes, stack, level);
      && (|left| > 1 ==> nodes[left[|left| - 1]].level < level)
      && (forall i :: |left| <= i < |stack| ==> nodes[stack[i]].level >= level)
  {
    if |stack| > 1 && nodes[stack[|stack| - 1]].level >= level { ClosedStops(nodes, stack[..|stack| - 1], level); }
  }

  /** Every node made after the new node's parent is at its level or deeper. */
  lemma {:induction false} SkippedAreDeep(t: Tree, level: int, j: nat, m: nat)
    requires Outline(t) && j < |t.stack| && t.stack[j] < m < |t.nodes|
    requires forall i :: j < i < |t.stack| ==> t.nodes[t.stack[i]].level >= level
    ensures t.nodes[m].level >= level
  {
    assert j + 1 < |t.stack|;
    var next := t.stack[j + 1];
    assert NearestShallower(t.nodes, next) && t.nodes[next].parent == t.stack[j];
    if m > next { LaterAreInside(t, j + 1, m); }
  }

  /** `after` has one more node, hung last under `parent`. */
  predicate OneMore(t: Tree, after: Tree, parent: nat) {
    && parent < |t.nodes| && |after.nodes| == |t.nodes| + 1
    && (forall n :: 0 <= n < |t.nodes| && n != parent ==> after.nodes[n] == t.nodes[n])
    && after.nodes[parent] == t.nodes[parent].(children := t.nodes[parent].children + [|t.nodes|])
    && after.nodes[|t.nodes|].parent == parent && after.nodes[|t.nodes|].children == []
  }

  lemma NearestKept(t: Tree, after: Tree, parent: nat, n: nat)
    requires OneMore(t, after, parent) && 0 < n < |t.nodes| && NearestShallower(t.nodes, n)
    ensures NearestShallower(after.nodes, n)
  {
  }

  lemma ChildrenKept(t: Tree, after: Tree, parent: nat, n: nat)
    requires OneMore(t, after, parent) && n < |t.nodes| && ListsChildren(t.nodes, n)
    ensures ListsChildren(after.nodes, n)
  {
    var before, children := t.nodes[n].children, after.nodes[n].children;
    assert children == if n == parent then before + [|t.nodes|] else before;
    forall m | 0 < m < |after.nodes| && after.nodes[m].parent == n
      ensures m in children
    {
      if m < |t.nodes| { assert m in before; } else { assert n == parent && children[|before|] == m; }
    }
  }

  lemma RangeKept(t: Tree, after: Tree, parent: nat)
    requires OneMore(t, after, parent) && InRange(t)
    requires after.stack != [] && forall i :: 0 <= i < |after.stack| ==> after.stack[i] < |after.nodes|
    ensures InRange(after)
  {
  }

  lemma PathKept(t: Tree, after: Tree, parent: nat, j: nat)
    requires OneMore(t, after, parent) && StackIsPath(t) && j < |t.stack| && parent == t.stack[j]
    requires after.stack == t.stack[..j + 1] + [|t.nodes|]
    ensures StackIsPath(after)
  {
  }

  lemma OpenedShape(t: Tree, kind: Kind, name: string, level: int, seg: string)
    requires InRange(t)
    ensures
      var after, left := Opened(t, kind, name, level, seg), Closed(t.nodes, t.stack, level);
      && OneMore(t, after, ParentFor(t, level)) && ParentFor(t, level) == left[|left| - 1]
      && after.stack == left + [|t.nodes|] && after.nodes[|t.nodes|].level == level
  {
    hide Closed, CountKind, Extended;
  }

  lemma OpenedIsOneMore(t: Tree, kind: Kind, name: string, level: int, seg: string) returns (j: nat)
    requires Outline(t) && level >= 0
    ensures
      var after, born := Opened(t, kind, name, level, seg), |t.nodes|;
      && j < |t.stack| && OneMore(t, after, t.stack[j]) && ParentFor(t, level) == t.stack[j]
      && after.stack == t.stack[..j + 1] + [born]
      && after.nodes[born].level == level
      && t.nodes[t.stack[j]].level < level
      && forall m :: t.stack[j] < m < born ==> t.nodes[m].level >= level
  {
    var left := Closed(t.nodes, t.stack, level);
    ClosedStops(t.nodes, t.stack, level);
    j := |left| - 1;
    OpenedShape(t, kind, name, level, seg);
    hide Closed, CountKind, Extended, Outline, Opened, OneMore, ParentFor;
    forall m | t.stack[j] < m < |t.nodes|
      ensures t.nodes[m].level >= level
    {
      SkippedAreDeep(t, level, j, m);
    }
  }

  lemma OpenedKeepsOutline(t: Tree, kind: Kind, name: string, level: int, seg: string)
    requires Outline(t) && level >= 0
    ensures Outline(Opened(t, kind, name, level, seg))
  {
    var after, born := Opened(t, kind, name, level, seg), |t.nodes|;
    var j := OpenedIsOneMore(t, kind, name, level, seg);
    hide Opened, Closed, ListsChildren;
    PathKept(t, after, t.stack[j], j);
    RangeKept(t, after, t.stack[j]);
    forall n | 0 < n < |after.nodes|
      ensures NearestShallower(after.nodes, n)
    {
      if n < born { NearestKept(t, after, t.stack[j], n); }
    }
    forall n | 0 <= n < |after.nodes|
      ensures ListsChildren(after.nodes, n)
    {
      if n < born {
        assert ListsChildren(t.nodes, n);
        ChildrenKept(t, after, t.stack[j], n);
      } else {
        LeafListsNothing(t, after, t.stack[j]);
      }
    }
  }

  lemma LeafListsNothing(t: Tree, after: Tree, parent: nat)
    requires OneMore(t, after, parent) && Outline(t)
    ensures ListsChildren(after.nodes, |t.nodes|)
  {
    forall m | 0 < m < |after.nodes|
      ensures after.nodes[m].parent != |t.nodes|
    {
      if m < |t.nodes| { assert NearestShallower(t.nodes, m); }
    }
  }

  /** Text and headings leave the outline alone. */
  lemma SameShapeKeepsOutline(t: Tree, after: Tree)
    requires Outline(t) && after.stack == t.stack && |after.nodes| == |t.nodes|
    requires forall n :: 0 <= n < |t.nodes| ==>
      && after.nodes[n].level == t.nodes[n].level && after.nodes[n].parent == t.nodes[n].parent
      && after.nodes[n].children == t.nodes[n].children
    ensures Outline(after)
  {
    forall n | 0 < n < |t.nodes|
      ensures NearestShallower(after.nodes, n)
    {
      assert NearestShallower(t.nodes, n);
    }
    forall n | 0 <= n < |t.nodes|
      ensures ListsChildren(after.nodes, n)
    {
      assert ListsChildren(t.nodes, n);
    }
  }

  // ---- pre-order is creation order -----------------------------------------------------

  function Range(lo: nat, hi: nat): (r: seq<nat>)
    requires lo <= hi
    ensures |r| == hi - lo && forall i :: 0 <= i < |r| ==> r[i] == lo + i
  {
    seq(hi - lo, i requires 0 <= i < hi - lo => lo + i)
  }

  /** A node, then its children's subtrees from first to last. */
  function Preorder(t: Tree, n: nat): seq<nat>
    requires InRange(t) && n < |t.nodes|
    decreases |t.nodes| - n, |t.nodes[n].children| + 1
  {
    [n] + PreorderOfChildren(t, n, |t.nodes[n].children|)
  }

  function PreorderOfChildren(t: Tree, n: nat, k: nat): seq<nat>
    requires InRange(t) && n < |t.nodes| && k <= |t.nodes[n].children|
    decreases |t.nodes| - n, k
  {
    if k == 0 then [] else PreorderOfChildren(t, n, k - 1) + Preorder(t, t.nodes[n].children[k - 1])
  }

  /** `hi` is the first node after `n` that is not deeper, or the end. */
  predicate EndsAt(nodes: seq<Node>, n: nat, hi: nat)
    requires n < |nodes|
  {
    && n < hi <= |nodes|
    && (forall m :: n < m < hi ==> nodes[m].level > nodes[n].level)
    && (hi < |nodes| ==> nodes[hi].level <= nodes[n].level)
  }

  /** Where the subtree of the k-th child begins; past the last child, where the parent's ends. */
  function ChildStart(t: Tree, n: nat, hi: nat, k: nat): nat
    requires InRange(t) && n < |t.nodes| && k <= |t.nodes[n].children|
  {
    if k < |t.nodes[n].children| then t.nodes[n].children[k] else hi
  }

  lemma FirstChildIsNext(t: Tree, n: nat, hi: nat)
    requires Outline(t) && n < |t.nodes| && EndsAt(t.nodes, n, hi)
    ensures ChildStart(t, n, hi, 0) == n + 1
  {
    assert ListsChildren(t.nodes, n);
    var children := t.nodes[n].children;
    if n + 1 < hi {
      assert NearestShallower(t.nodes, n + 1);
      assert n + 1 in children;
    } else if children != [] {
      var c := children[0];
      assert NearestShallower(t.nodes, c);
    }
  }

  lemma ChildIsInside(t: Tree, n: nat, hi: nat, k: nat)
    requires Outline(t) && n < |t.nodes| && EndsAt(t.nodes, n, hi) && k < |t.nodes[n].children|
    ensures t.nodes[n].children[k] < hi
  {
    assert ListsChildren(t.nodes, n);
    assert NearestShallower(t.nodes, t.nodes[n].children[k]);
  }

  /** Between two neighbouring siblings lies the first one's subtree and nothing else. */
  lemma ChildEndsAtNext(t: Tree, n: nat, hi: nat, k: nat)
    requires Outline(t) && n < |t.nodes| && EndsAt(t.nodes, n, hi) && k < |t.nodes[n].children|
    ensures EndsAt(t.nodes, t.nodes[n].children[k], ChildStart(t, n, hi, k + 1))
  {
    var children := t.nodes[n].children;
    var c, end := children[k], ChildStart(t, n, hi, k + 1);
    assert ListsChildren(t.nodes, n) && NearestShallower(t.nodes, c);
    ChildIsInside(t, n, hi, k);
    if k + 1 < |children| {
      ChildIsInside(t, n, hi, k + 1);
      assert NearestShallower(t.nodes, end);
    }
    DeeperUntil(t, n, hi, k, end);
  }

  lemma {:induction false} DeeperUntil(t: Tree, n: nat, hi: nat, k: nat, end: nat)
    requires Outline(t) && n < |t.nodes| && EndsAt(t.nodes, n, hi) && k < |t.nodes[n].children|
    requires t.nodes[n].children[k] < end <= ChildStart(t, n, hi, k + 1) && end <= hi
    ensures forall m :: t.nodes[n].children[k] < m < end ==> t.nodes[m].level > t.nodes[t.nodes[n].children[k]].level
    decreases end
  {
    var children := t.nodes[n].children;
    var c, m := children[k], end - 1;
    if m > c {
      DeeperUntil(t, n, hi, k, m);
      assert ListsChildren(t.nodes, n) && NearestShallower(t.nodes, c) && NearestShallower(t.nodes, m);
    }
  }

  lemma {:induction false} SubtreeIsRange(t: Tree, n: nat, hi: nat)
    requires Outline(t) && n < |t.nodes| && EndsAt(t.nodes, n, hi)
    ensures Preorder(t, n) == Range(n, hi)
    decreases |t.nodes| - n, |t.nodes[n].children| + 1
  {
    ChildrenAreRange(t, n, hi, |t.nodes[n].children|);
  }

  lemma {:induction false} ChildrenAreRange(t: Tree, n: nat, hi: nat, k: nat)
    requires Outline(t) && n < |t.nodes| && EndsAt(t.nodes, n, hi) && k <= |t.nodes[n].children|
    ensures n < ChildStart(t, n, hi, k) && PreorderOfChildren(t, n, k) == Range(n + 1, ChildStart(t, n, hi, k))
    decreases |t.nodes| - n, k
  {
    if k == 0 {
      FirstChildIsNext(t, n, hi);
    } else {
      ChildrenAreRange(t, n, hi, k - 1);
      ChildEndsAtNext(t, n, hi, k - 1);
      SubtreeIsRange(t, t.nodes[n].children[k - 1], ChildStart(t, n, hi, k));
    }
  }

  /** Walking the tree in pre-order meets the nodes in the order they were made, each once. */
  lemma PreorderIsCreationOrder(t: Tree)
    requires Outline(t)
    ensures Preorder(t, 0) == Range(0, |t.nodes|)
  {
    forall m | 0 < m < |t.nodes|
      ensures t.nodes[m].level > -1
    {
      AboveRoot(t, m);
    }
    SubtreeIsRange(t, 0, |t.nodes|);
  }

  lemma {:induction false} AboveRoot(t: Tree, m: nat)
    requires Outline(t) && 0 < m < |t.nodes|
    ensures t.nodes[m].level > -1
  {
    assert NearestShallower(t.nodes, m);
    if t.nodes[m].parent > 0 { AboveRoot(t, t.nodes[m].parent); }
  }

  // ---- the text ------------------------------------------------------------------------

  function ContentsInOrder(nodes: seq<Node>, order: seq<nat>): (contents: seq<string>)
    requires forall i :: 0 <= i < |order| ==> order[i] < |nodes|
    ensures |contents| == |order|
  {
    seq(|order|, i requires 0 <= i < |order| => nodes[order[i]].content)
  }

  /** The fragments of a text, one per line. */
  function Text(fragments: seq<string>): string {
    if fragments == [] then "" else
      var before, s := Text(fragments[..|fragments| - 1]), fragments[|fragments| - 1];
      if s == "" then before else Joined(before, s)
  }

  /** The whole text of a tree, read in pre-order. */
  function TextOf(t: Tree): string
    requires Outline(t)
  {
    PreorderIsCreationOrder(t);
    Text(ContentsInOrder(t.nodes, Preorder(t, 0)))
  }

  lemma OpeningAddsNoText(t: Tree, kind: Kind, name: string, level: int, seg: string)
    requires Outline(t) && level >= 0
    ensures Outline(Opened(t, kind, name, level, seg)) && TextOf(Opened(t, kind, name, level, seg)) == TextOf(t)
  {
    var after, size := Opened(t, kind, name, level, seg), |t.nodes|;
    OpenedKeepsOutline(t, kind, name, level, seg);
    PreorderIsCreationOrder(t);
    PreorderIsCreationOrder(after);
    var before, contents := ContentsInOrder(t.nodes, Range(0, size)), ContentsInOrder(after.nodes, Range(0, size + 1));
    assert contents[..size] == before && contents[size] == "";
  }

  lemma HeadingAddsNoText(t: Tree, h: string)
    requires Outline(t)
    ensures Outline(WithHeading(t, h)) && TextOf(WithHeading(t, h)) == TextOf(t)
  {
    var after := WithHeading(t, h);
    SameShapeKeepsOutline(t, after);
    PreorderIsCreationOrder(t);
    PreorderIsCreationOrder(after);
    assert ContentsInOrder(after.nodes, Range(0, |t.nodes|)) == ContentsInOrder(t.nodes, Range(0, |t.nodes|));
  }

  lemma JoinedTwice(a: string, b: string, s: string)
    requires s != ""
    ensures (if b == "" then Joined(a, s) else Joined(a, Joined(b, s)))
         == if b == "" then Joined(a, s) else Joined(Joined(a, b), s)
  {
    assert a + "\n" + (b + "\n" + s) == (a + "\n" + b) + "\n" + s;
  }

  /** A fragment joins the text at its end, and the newest node holds it. */
  lemma TextIsAppended(t: Tree, s: string)
    requires Outline(t) && s != "" && |t.nodes| > 1
    ensures Outline(WithText(t, s)) && TextOf(WithText(t, s)) == Joined(TextOf(t), s)
  {
    var after, size := WithText(t, s), |t.nodes|;
    SameShapeKeepsOutline(t, after);
    PreorderIsCreationOrder(t);
    PreorderIsCreationOrder(after);
    var before, contents := ContentsInOrder(t.nodes, Range(0, size)), ContentsInOrder(after.nodes, Range(0, size));
    var last := before[size - 1];
    assert contents[..size - 1] == before[..size - 1] && contents[size - 1] == Joined(last, s);
    JoinedTwice(Text(before[..size - 1]), last, s);
  }
}
