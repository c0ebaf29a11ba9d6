/** The parser as it runs: one object whose stack, nodes and flags change line by line. */
module ActMachine {
  import opened OutlineTree
  import opened OutlinePaths
  import opened Strings
  import opened ActParser

  class Parser {
    var nodes: seq<Node>
    var stack: seq<nat>
    var lastArt: int
    var lastItem: string
    var inAnnex: bool

    function Tree(): Tree reads this { OutlineTree.Tree(nodes, stack) }

    function Flags(): Flags reads this { ActParser.Flags(lastArt, lastItem, inAnnex) }

    function Now(): State reads this { State(Tree(), Flags()) }

    constructor ()
      ensures Now() == Parsed([])
    {
      nodes, stack := EMPTY_TREE.nodes, EMPTY_TREE.stack;
      lastArt, lastItem, inAnnex := 0, "", false;
    }

    /** Closes deeper nodes, then opens one under what is left, numbered among its kind and uniquely named. */
    method Push(kind: Kind, name: string, level: nat, seg: string)
      requires Sound(Tree()) && Plain(seg)
      modifies this`nodes, this`stack
      ensures Sound(old(Tree())) && Tree() == Act(old(Tree()), Open(kind, name, level, seg))
    {
      OpenIsGrown(Tree(), kind, name, level, seg);
      hide *;
      CloseDeeper(level);
      var node := NewNode(stack[|stack| - 1], kind, name, level, seg);
      Link(node);
    }

    /** A node for this parent, numbered among its kind and with a path no sibling has. */
    method NewNode(parent: nat, kind: Kind, name: string, level: nat, seg: string) returns (node: Node)
      requires HasChildren(nodes, parent)
      ensures node == NodeFor(nodes, parent, kind, name, level, seg)
    {
      hide FirstFree, CountKind;
      var p := nodes[parent];
      var ord := CountChildren(p.children, kind);
      var unique := UniqueSegment(nodes, p.children, seg);
      var path := unique;
      if p.path != "" { path := p.path + "/" + unique; }
      node := Node(kind, level, ord + 1, name, path, "", "", parent, []);
    }

    /** Appends the node, lists it with its parent and opens it. */
    method Link(node: Node)
      requires stack != [] && stack[|stack| - 1] < |nodes|
      modifies this`nodes, this`stack
      ensures Tree() == Grown(old(nodes), old(stack), node)
    {
      var parent := stack[|stack| - 1];
      var p := nodes[parent];
      stack := stack + [|nodes|];
      nodes := nodes[parent := p.(children := p.children + [|nodes|])] + [node];
    }

    method CloseDeeper(level: nat)
      requires InRange(Tree())
      modifies this`stack
      ensures stack == Closed(nodes, old(stack), level)
    {
      ghost var all := stack;
      while |stack| > 1 && nodes[stack[|stack| - 1]].level >= level
        invariant stack != [] && |stack| <= |all| && stack == all[..|stack|]
        invariant Closed(nodes, stack, level) == Closed(nodes, all, level)
      {
        stack := stack[..|stack| - 1];
      }
    }

    method CountChildren(children: seq<nat>, kind: Kind) returns (ord: nat)
      requires forall k :: 0 <= k < |children| ==> children[k] < |nodes|
      ensures ord == CountKind(nodes, children, kind)
    {
      ord := 0;
      for k := 0 to |children|
        invariant ord == CountKind(nodes, children[..k], kind)
      {
        assert children[..k + 1][..k] == children[..k];
        if nodes[children[k]].kind == kind { ord := ord + 1; }
      }
      assert children[..|children|] == children;
    }

    method AppendContent(s: string)
      requires Sound(Tree()) && s != ""
      modifies this`nodes
      ensures Sound(old(Tree())) && Tree() == Act(old(Tree()), Write(s))
    {
      ghost var t := Tree();
      OutlineInRange(t);
      assert Act(t, Write(s)) == WithText(t, s);
      hide Act, Sound, Outline, UniquePaths;
      var top := stack[|stack| - 1];
      if top == 0 { return; }
      var content := nodes[top].content;
      if content != "" { content := content + "\n"; }
      assert content + s == Joined(t.nodes[top].content, s);
      nodes := nodes[top := nodes[top].(content := content + s)];
    }

    method SetHeading(h: string)
      requires Sound(Tree())
      modifies this`nodes
      ensures Sound(old(Tree())) && Tree() == Act(old(Tree()), Head(h))
    {
      OutlineInRange(Tree());
      var top := stack[|stack| - 1];
      if top != 0 { nodes := nodes[top := nodes[top].(heading := h)]; }
    }

    // A first article 1 needs no case of its own: it is one more than the initial zero.
    method AcceptArticle(num: string) returns (ok: bool)
      modifies this`lastArt
      ensures ok == (!inAnnex && Accepts(old(lastArt), num))
      ensures lastArt == if ok then LeadingInt(num) else old(lastArt)
    {
      if inAnnex { return false; }
      var base := LeadingInt(num);
      var hasSuffix := base > 0 && |Itoa(base)| < |num|;
      if base == lastArt + 1 || (hasSuffix && base == lastArt) {
        lastArt := base;
        return true;
      }
      return false;
    }

    method InsideArticle() returns (inside: bool)
      requires Sound(Tree())
      ensures inside == InArticle(Tree())
    {
      OutlineInRange(Tree());
      var i := |stack|;
      while i > 0
        invariant 0 <= i <= |stack|
        invariant forall k :: i <= k < |stack| ==> nodes[stack[k]].kind != Section
      {
        i := i - 1;
        if nodes[stack[i]].kind == Section { return true; }
      }
      return false;
    }

    method OpenWithText(kind: Kind, name: string, level: nat, seg: string, text: string)
      requires Sound(Tree()) && PlainActions([Open(kind, name, level, seg), Write(text)])
      modifies this`nodes, this`stack
      ensures Sound(old(Tree())) && Tree() == ActAll(old(Tree()), [Open(kind, name, level, seg), Write(text)])
    {
      TwoActions(Tree(), [Open(kind, name, level, seg), Write(text)]);
      Push(kind, name, level, seg);
      AppendContent(text);
    }

    method ConsumeNumbered(num: string, text: string)
      requires Sound(Tree()) && PlainActions(NumberedActions(num, text))
      modifies this`nodes, this`stack
      ensures Sound(old(Tree())) && Tree() == ActAll(old(Tree()), NumberedActions(num, text))
    {
      OpenWithText(Subsection, "(" + num + ")", LEVEL_SUBSECTION, "subsection-" + Lower(num), text);
    }

    method ConsumeLettered(tok: string, text: string)
      requires Sound(Tree()) && PlainActions(LetteredActions(IsSubItem(lastItem, tok), tok, text))
      modifies this`nodes, this`stack, this`lastItem
      ensures
        var sub := IsSubItem(old(lastItem), tok);
        && lastItem == (if sub then old(lastItem) else tok)
        && Sound(old(Tree())) && Tree() == ActAll(old(Tree()), LetteredActions(sub, tok, text))
    {
      hide IsSubItem;
      if IsSubItem(lastItem, tok) {
        OpenWithText(Paragraph, "(" + tok + ")", LEVEL_SUBPARAGRAPH, "subparagraph-" + tok, text);
      } else {
        OpenWithText(Paragraph, "(" + tok + ")", LEVEL_PARAGRAPH, "paragraph-" + tok, text);
        lastItem := tok;
      }
    }

    method ConsumeText(raw: string)
      requires Sound(Tree()) && PlainActions([Write(raw)])
      modifies this`nodes
      ensures Sound(old(Tree())) && Tree() == ActAll(old(Tree()), [Write(raw)])
    {
      OneAction(Tree(), [Write(raw)]);
      AppendContent(raw);
    }

    method ConsumeAnnex(raw: string, slug: string)
      requires Sound(Tree()) && PlainActions([Open(Schedule, raw, LEVEL_PART, slug)])
      modifies this`nodes, this`stack
      ensures Sound(old(Tree())) && Tree() == ActAll(old(Tree()), [Open(Schedule, raw, LEVEL_PART, slug)])
    {
      OneAction(Tree(), [Open(Schedule, raw, LEVEL_PART, slug)]);
      Push(Schedule, raw, LEVEL_PART, slug);
    }

    method ConsumeInline(rest: Rest)
      requires Sound(Tree()) && PlainActions(RestActions(rest))
      modifies this`nodes, this`stack
      ensures Sound(old(Tree())) && Tree() == ActAll(old(Tree()), RestActions(rest))
    {
      hide NumberedActions;
      if rest.Numbered? {
        ConsumeNumbered(rest.num, rest.text);
      } else if rest.Words? {
        OneAction(Tree(), RestActions(rest));
        AppendContent(rest.text);
      }
    }

    method ConsumeChapter(num: string, title: string)
      requires Sound(Tree()) && PlainActions(ChapterActions(num, title))
      modifies this`nodes, this`stack
      ensures Sound(old(Tree())) && Tree() == ActAll(old(Tree()), ChapterActions(num, title))
    {
      ghost var t, actions := Tree(), ChapterActions(num, title);
      if title != "" { TwoActions(t, actions); } else { OneAction(t, actions); }
      hide Sound, ActAll, Act;
      Push(Chapter, "Chapter " + Upper(num), LEVEL_PART, "chapter-" + Lower(num));
      if title != "" { SetHeading(title); }
    }

    method ConsumeArticle(num: string, rest: Rest)
      requires Sound(Tree()) && PlainActions(ArticleActions(num, rest))
      modifies this`nodes, this`stack, this`lastItem
      ensures lastItem == ""
      ensures Sound(old(Tree())) && Tree() == ActAll(old(Tree()), ArticleActions(num, rest))
    {
      ghost var actions := ArticleActions(num, rest);
      lastItem := "";
      FirstThenRest(Tree(), actions);
      assert actions[1..] == RestActions(rest);
      hide Sound, ActAll, Act, RestActions;
      Push(Section, "Article " + num, LEVEL_SECTION, "section-" + Lower(num));
      ConsumeInline(rest);
    }

    /** A numbered or lettered line opens a node inside an article; any other line is text. */
    method ConsumeItem(line: Line)
      requires Ready(Now()) && WellClassified(line) && !line.Annex? && !line.ChapterLine? && !inAnnex
      requires line.ArticleLine? ==> !Accepts(lastArt, line.num)
      modifies this`nodes, this`stack, this`lastItem
      ensures Ready(old(Now())) && Now() == Consumed(old(Now()), line)
    {
      ghost var s := Now();
      ReactionIsPlain(s.f, InArticle(s.t), line);
      hide Sound, ActAll, InArticle, IsSubItem, Accepts, PlainActions, NumberedActions, LetteredActions;
      var inside := InsideArticle();
      if line.NumberedLine? && inside {
        lastItem := "";
        ConsumeNumbered(line.num, line.text);
        return;
      }
      if line.LetteredLine? && inside {
        ConsumeLettered(line.tok, line.text);
        return;
      }
      ConsumeText(line.raw);
    }

    method Consume(line: Line)
      requires Ready(Now()) && WellClassified(line)
      modifies this
      ensures Ready(old(Now())) && Now() == Consumed(old(Now()), line)
    {
      ghost var s := Now();
      ReactionIsPlain(s.f, InArticle(s.t), line);
      hide Sound, ActAll, InArticle, IsSubItem, Accepts, PlainActions, ChapterActions, ArticleActions;
      if line.Annex? {
        inAnnex := true;
        ConsumeAnnex(line.raw, line.slug);
        return;
      }
      if inAnnex {
        ConsumeText(line.raw);
        return;
      }
      if line.ChapterLine? {
        ConsumeChapter(line.num, line.title);
        return;
      }
      if line.ArticleLine? {
        var accepted := AcceptArticle(line.num);
        if accepted {
          ConsumeArticle(line.num, line.rest);
          return;
        }
      }
      assert Now() == s;
      ConsumeItem(line);
    }
  }

  /** A whole act, line by line. */
  method ParseAct(lines: seq<Line>) returns (p: Parser)
    requires AllWell(lines)
    ensures fresh(p) && p.Now() == Parsed(lines)
  {
    p := new Parser();
    for i := 0 to |lines|
      invariant fresh(p) && p.Now() == Parsed(lines[..i])
    {
      assert lines[..i + 1][..i] == lines[..i];
      p.Consume(lines[i]);
    }
    assert lines[..|lines|] == lines;
  }

  predicate HasChildren(nodes: seq<Node>, parent: nat) {
    parent < |nodes| && forall k :: 0 <= k < |nodes[parent].children| ==> nodes[parent].children[k] < |nodes|
  }

  /** The new node of its parent. */
  function NodeFor(nodes: seq<Node>, parent: nat, kind: Kind, name: string, level: nat, seg: string): Node
    requires HasChildren(nodes, parent)
  {
    var p := nodes[parent];
    Node(kind, level, CountKind(nodes, p.children, kind) + 1, name,
         Extended(p.path, FirstFree(nodes, p.children, seg, 1)), "", "", parent, [])
  }

  /** The tree with the node linked under the newest open one. */
  function Grown(nodes: seq<Node>, left: seq<nat>, node: Node): Tree
    requires left != [] && left[|left| - 1] < |nodes|
  {
    var parent := left[|left| - 1];
    var p := nodes[parent];
    Tree(nodes[parent := p.(children := p.children + [|nodes|])] + [node], left + [|nodes|])
  }

  lemma PushedIsGrown(t: Tree, kind: Kind, name: string, level: nat, seg: string)
    requires InRange(t)
    ensures
      var left := Closed(t.nodes, t.stack, level);
      && HasChildren(t.nodes, left[|left| - 1])
      && Pushed(t, kind, name, level, seg) ==
         Grown(t.nodes, left, NodeFor(t.nodes, left[|left| - 1], kind, name, level, seg))
  {
    hide FirstFree, CountKind, Closed;
  }

  lemma OpenIsGrown(t: Tree, kind: Kind, name: string, level: nat, seg: string)
    requires Sound(t) && Plain(seg)
    ensures InRange(t)
    ensures
      var left := Closed(t.nodes, t.stack, level);
      && HasChildren(t.nodes, left[|left| - 1])
      && Act(t, Open(kind, name, level, seg)) ==
         Grown(t.nodes, left, NodeFor(t.nodes, left[|left| - 1], kind, name, level, seg))
  {
    OutlineInRange(t);
    hide Outline, UniquePaths, InRange, HasChildren, Pushed, Grown, NodeFor, Closed;
    PushedIsGrown(t, kind, name, level, seg);
  }
}
