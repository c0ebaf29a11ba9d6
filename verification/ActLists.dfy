/**
  Where each line of an act puts its node: chapters and annexes under the root, an article
  under the newest chapter, a numbered paragraph under its article, a lettered item under
  the article or numbered paragraph it lists for, and a sub-item under the newest item of
  that list. Told by the tree before and after the line, not by levels.
 */
module ActLists {
  import opened OutlineTree
  import opened OutlinePaths
  import opened Strings
  import opened ActParser
  import opened ActStructure

  // ---- one node more --------------------------------------------------------------------

  /** A leaf was added, hung last under `parent`; no other node changed its place, kind, name or text. */
  predicate Adds(before: seq<Node>, after: seq<Node>, kind: Kind, name: string, parent: nat) {
    && |after| == |before| + 1 && parent < |before|
    && (forall n :: 0 <= n < |before| ==>
          && after[n].kind == before[n].kind && after[n].level == before[n].level && after[n].name == before[n].name
          && after[n].parent == before[n].parent && after[n].content == before[n].content
          && after[n].heading == before[n].heading && after[n].path == before[n].path)
    && after[|before|].kind == kind && after[|before|].name == name && after[|before|].parent == parent
  }

  lemma OpenAdds(t: Tree, a: Action)
    requires Sound(t) && PlainAction(a) && a.Open?
    ensures InRange(t) && InRange(Act(t, a))
    ensures
      var after := Act(t, a);
      && Adds(t.nodes, after.nodes, a.kind, a.name, ParentFor(t, a.level))
      && after.nodes[|t.nodes|].level == a.level && after.nodes[|t.nodes|].content == "" && after.nodes[|t.nodes|].heading == ""
      && after.stack != [] && Top(after) == |t.nodes|
      && after.nodes[|t.nodes|].path == NewPath(t, ParentFor(t, a.level), a.seg)
  {
    OutlineInRange(t);
    OutlineInRange(Act(t, a));
    hide Outline, UniquePaths, FirstFree, Closed, CountKind, Extended;
  }

  /** The node a line opens, with its text and heading. */
  predicate Opens(
    t: Tree, after: Tree, kind: Kind, name: string, seg: string, parent: nat, level: nat, heading: string, content: string)
  {
    && InRange(t) && Adds(t.nodes, after.nodes, kind, name, parent)
    && var n := after.nodes[|t.nodes|];
       n.level == level && n.heading == heading && n.content == content && n.path == NewPath(t, parent, seg)
  }

  /** The parent's path with the first variant of the segment that no child of it has. */
  function NewPath(t: Tree, parent: nat, seg: string): string
    requires InRange(t) && parent < |t.nodes|
  {
    Extended(t.nodes[parent].path, FirstFree(t.nodes, t.nodes[parent].children, seg, 1))
  }

  /** Text or a heading goes to the node just mid. */
  lemma FillsNew(t: Tree, before: seq<Node>, kind: Kind, name: string, parent: nat, text: string)
    requires InRange(t) && Top(t) == |before| > 0 && Adds(before, t.nodes, kind, name, parent)
    requires t.nodes[|before|].content == "" && t.nodes[|before|].heading == ""
    ensures
      var after := WithText(t, text).nodes;
      && Adds(before, after, kind, name, parent) && after[|before|].level == t.nodes[|before|].level
      && after[|before|].path == t.nodes[|before|].path
      && after[|before|].content == text && after[|before|].heading == ""
    ensures
      var after := WithHeading(t, text).nodes;
      && Adds(before, after, kind, name, parent) && after[|before|].level == t.nodes[|before|].level
      && after[|before|].path == t.nodes[|before|].path
      && after[|before|].heading == text && after[|before|].content == ""
  {
  }

  lemma ActFills(t: Tree, text: string)
    requires Sound(t) && text != ""
    ensures InRange(t) && Act(t, Write(text)) == WithText(t, text) && Act(t, Head(text)) == WithHeading(t, text)
  {
    OutlineInRange(t);
    hide Outline, UniquePaths, InRange, WithText, WithHeading;
  }

  lemma OpenThenWrite(t: Tree, a: Action, text: string)
    requires Sound(t) && PlainActions([a, Write(text)]) && a.Open? && text != ""
    ensures InRange(t)
    ensures Opens(t, ActAll(t, [a, Write(text)]), a.kind, a.name, a.seg, ParentFor(t, a.level), a.level, "", text)
  {
    assert t.nodes != [] by { OutlineInRange(t); }
    hide Sound, ParentFor, Act, ActAll, InRange, Adds, WithText, WithHeading;
    TwoActions(t, [a, Write(text)]);
    OpenAdds(t, a);
    ActFills(Act(t, a), text);
    FillsNew(Act(t, a), t.nodes, a.kind, a.name, ParentFor(t, a.level), text);
  }

  lemma OpenThenHead(t: Tree, a: Action, heading: string)
    requires Sound(t) && PlainActions([a, Head(heading)]) && a.Open? && heading != ""
    ensures InRange(t)
    ensures Opens(t, ActAll(t, [a, Head(heading)]), a.kind, a.name, a.seg, ParentFor(t, a.level), a.level, heading, "")
  {
    assert t.nodes != [] by { OutlineInRange(t); }
    hide Sound, ParentFor, Act, ActAll, InRange, Adds, WithText, WithHeading;
    TwoActions(t, [a, Head(heading)]);
    OpenAdds(t, a);
    ActFills(Act(t, a), heading);
    FillsNew(Act(t, a), t.nodes, a.kind, a.name, ParentFor(t, a.level), heading);
  }

  lemma OpenAlone(t: Tree, a: Action)
    requires Sound(t) && PlainActions([a]) && a.Open?
    ensures InRange(t)
    ensures Opens(t, ActAll(t, [a]), a.kind, a.name, a.seg, ParentFor(t, a.level), a.level, "", "")
  {
    OneAction(t, [a]);
    OpenAdds(t, a);
    hide Act, Sound, ParentFor;
  }

  // ---- the parent, by the kinds around it ---------------------------------------------------

  /** The nearest node of a smaller level is the only one with nothing smaller after it. */
  predicate Under(nodes: seq<Node>, level: int, parent: int) {
    && 0 <= parent < |nodes| && nodes[parent].level < level
    && forall m :: parent < m < |nodes| ==> nodes[m].level >= level
  }

  lemma ParentIsUnder(t: Tree, level: nat, parent: int)
    requires Outline(t) && Under(t.nodes, level, parent)
    ensures InRange(t) && ParentFor(t, level) == parent
  {
    OutlineInRange(t);
    var j := OpenedIsOneMore(t, Paragraph, "", level, "");
    hide Outline, ParentFor, OneMore, Opened;
    NearestIsOne(t.nodes, level, parent, t.stack[j]);
  }

  lemma NearestIsOne(nodes: seq<Node>, level: int, p: int, q: int)
    requires Under(nodes, level, p) && Under(nodes, level, q)
    ensures p == q
  {
  }

  /** The newest article or numbered paragraph, if only lettered paragraphs follow it. */
  predicate IsHost(nodes: seq<Node>, host: int) {
    && 0 <= host < |nodes| && (nodes[host].kind == Section || nodes[host].kind == Subsection)
    && forall m :: host < m < |nodes| ==> nodes[m].kind == Paragraph
  }

  /** The newest node directly under the host. */
  predicate IsNewestChild(nodes: seq<Node>, host: int, child: int) {
    && host < child < |nodes| && 0 <= host && nodes[child].parent == host
    && forall m :: child < m < |nodes| ==> nodes[m].parent != host
  }

  /**
    The state of the host's list. Without a lettered item so far, whatever it holds are
    sub-items of its own. Otherwise its newest child is the last item, and everything
    after that item is a sub-item of it.
   */
  ghost predicate ListsTo(nodes: seq<Node>, host: int, lastItem: string) {
    if lastItem == "" then
      forall m :: 0 <= host < m < |nodes| ==> nodes[m].parent == host && nodes[m].level == LEVEL_SUBPARAGRAPH
    else
      exists c :: ItemOf(nodes, host, lastItem, c)
  }

  predicate ItemOf(nodes: seq<Node>, host: int, lastItem: string, c: int) {
    && 0 <= host < c < |nodes| && nodes[c].parent == host && nodes[c].name == "(" + lastItem + ")"
    && nodes[c].level == LEVEL_PARAGRAPH
    && forall m :: c < m < |nodes| ==> nodes[m].parent == c && nodes[m].level == LEVEL_SUBPARAGRAPH
  }

  ghost predicate Lists(s: State) {
    forall host :: IsHost(s.t.nodes, host) ==> ListsTo(s.t.nodes, host, s.f.lastItem)
  }

  /** Inside an article there is a host. */
  lemma HostExists(t: Tree) returns (host: nat)
    requires Outline(t) && Grammar(t.nodes) && InRange(t) && InArticle(t)
    ensures IsHost(t.nodes, host)
  {
    InArticleMeans(t);
    var n :| IsOpenArticle(t.nodes, n);
    hide Grammar, Outline;
    forall m | n < m < |t.nodes|
      ensures t.nodes[m].kind == Subsection || t.nodes[m].kind == Paragraph
    {
      KnownLevel(t.nodes, m);
    }
    host := NewestHost(t.nodes, n, |t.nodes|);
  }

  lemma {:induction false} NewestHost(nodes: seq<Node>, n: nat, end: nat) returns (host: nat)
    requires n < end <= |nodes| && nodes[n].kind == Section
    requires forall m :: n < m < |nodes| ==> nodes[m].kind == Subsection || nodes[m].kind == Paragraph
    requires forall m :: end <= m < |nodes| ==> nodes[m].kind == Paragraph
    ensures IsHost(nodes, host)
    decreases end
  {
    if end - 1 == n || nodes[end - 1].kind == Subsection {
      host := end - 1;
    } else {
      host := NewestHost(nodes, n, end - 1);
    }
  }

  /** And without an article there is none. */
  lemma HostIsInArticle(t: Tree, host: int)
    requires Outline(t) && Grammar(t.nodes) && IsHost(t.nodes, host)
    ensures InRange(t) && InArticle(t)
  {
    InArticleMeans(t);
    OutlineInRange(t);
    forall m | host < m < |t.nodes|
      ensures t.nodes[m].level > LEVEL_SECTION
    {
      KnownLevel(t.nodes, m);
    }
    if t.nodes[host].kind == Section {
      assert IsOpenArticle(t.nodes, host);
    } else {
      SubsectionHasArticle(t, host);
    }
  }

  lemma ParentAndKind(t: Tree, n: nat)
    requires Outline(t) && Grammar(t.nodes) && 0 < n < |t.nodes|
    ensures NearestShallower(t.nodes, n) && Holds(t.nodes[t.nodes[n].parent].kind, t.nodes[n].kind)
  {
  }

  lemma SubsectionHasArticle(t: Tree, host: nat)
    requires Outline(t) && Grammar(t.nodes) && host < |t.nodes| && t.nodes[host].kind == Subsection
    requires forall m :: host < m < |t.nodes| ==> t.nodes[m].level > LEVEL_SECTION
    ensures exists n :: IsOpenArticle(t.nodes, n)
  {
    hide Outline, Grammar;
    KnownLevel(t.nodes, host);
    RootLevel(t);
    ParentAndKind(t, host);
    assert IsOpenArticle(t.nodes, t.nodes[host].parent);
  }

  lemma RootLevel(t: Tree)
    requires Outline(t)
    ensures t.nodes != [] && t.nodes[0].level == -1
  {
  }

  /** Where an item and a sub-item of the host's list belong. */
  lemma ItemPlace(t: Tree, host: int, lastItem: string) returns (c: int)
    requires Grammar(t.nodes) && IsHost(t.nodes, host) && ListsTo(t.nodes, host, lastItem)
    ensures Under(t.nodes, LEVEL_PARAGRAPH, host)
    ensures if lastItem == "" then c == host
            else IsNewestChild(t.nodes, host, c) && t.nodes[c].name == "(" + lastItem + ")" && ItemOf(t.nodes, host, lastItem, c)
    ensures Under(t.nodes, LEVEL_SUBPARAGRAPH, c)
  {
    KnownLevel(t.nodes, host);
    forall m | host < m < |t.nodes|
      ensures t.nodes[m].level >= LEVEL_PARAGRAPH
    {
      KnownLevel(t.nodes, m);
    }
    c := host;
    if lastItem != "" {
      c :| ItemOf(t.nodes, host, lastItem, c);
    }
  }

  // ---- a lettered line ------------------------------------------------------------------------

  lemma LetteredReaction(f: Flags, line: Line)
    requires WellClassified(line) && line.LetteredLine? && !f.inAnnex
    ensures
      var sub := IsSubItem(f.lastItem, line.tok);
      var open := LetteredActions(sub, line.tok, line.text)[0];
      && Reaction(f, true, line) == (f.(lastItem := if sub then f.lastItem else line.tok), [open, Write(line.text)])
      && open.Open? && open.kind == Paragraph && open.name == "(" + line.tok + ")"
      && open.level == (if sub then LEVEL_SUBPARAGRAPH else LEVEL_PARAGRAPH)
      && open.seg == (if sub then "subparagraph-" else "paragraph-") + line.tok
  {
    hide IsSubItem;
  }

  lemma LetteredIs(s: State, line: Line)
    requires Ready(s) && WellClassified(line) && line.LetteredLine? && !s.f.inAnnex && InRange(s.t) && InArticle(s.t)
    ensures
      var sub := IsSubItem(s.f.lastItem, line.tok);
      var open := LetteredActions(sub, line.tok, line.text)[0];
      && PlainActions([open, Write(line.text)]) && open.Open? && open.kind == Paragraph && open.name == "(" + line.tok + ")"
      && open.level == (if sub then LEVEL_SUBPARAGRAPH else LEVEL_PARAGRAPH)
      && open.seg == (if sub then "subparagraph-" else "paragraph-") + line.tok
      && Consumed(s, line) == State(ActAll(s.t, [open, Write(line.text)]),
                                    s.f.(lastItem := if sub then s.f.lastItem else line.tok))
  {
    hide InArticle, IsSubItem, ActAll, Act, Ready, Consumed, InRange, Reaction, WellClassified, PlainActions, LetteredActions;
    ConsumedIs(s, line);
    LetteredReaction(s.f, line);
  }

  /**
    A lettered item hangs under the host, never under another item. A sub-item, that is a
    roman numeral that is not the next letter, hangs under the newest item of the list,
    or under the host while the list has none.
   */
  lemma LetteredOpens(s: State, line: Line) returns (host: nat, parent: nat)
    requires Ready(s) && WellClassified(line) && Grammar(s.t.nodes) && Lists(s)
    requires line.LetteredLine? && !s.f.inAnnex && InRange(s.t) && InArticle(s.t)
    ensures IsHost(s.t.nodes, host)
    ensures
      var sub := IsSubItem(s.f.lastItem, line.tok);
      && (if sub && s.f.lastItem != ""
          then IsNewestChild(s.t.nodes, host, parent) && s.t.nodes[parent].name == "(" + s.f.lastItem + ")"
               && ItemOf(s.t.nodes, host, s.f.lastItem, parent)
          else parent == host)
      && Opens(s.t, Consumed(s, line).t, Paragraph, "(" + line.tok + ")",
               (if sub then "subparagraph-" else "paragraph-") + line.tok, parent,
               if sub then LEVEL_SUBPARAGRAPH else LEVEL_PARAGRAPH, "", line.text)
      && Consumed(s, line).f.lastItem == (if sub then s.f.lastItem else line.tok)
  {
    host := HostExists(s.t);
    var c := ItemPlace(s.t, host, s.f.lastItem);
    LetteredIs(s, line);
    var sub := IsSubItem(s.f.lastItem, line.tok);
    var open := LetteredActions(sub, line.tok, line.text)[0];
    hide Grammar, InArticle, IsHost, Consumed, IsSubItem, LetteredActions, ListsTo, ItemOf, IsNewestChild, Under, ActAll, Opens;
    parent := if sub then c else host;
    ParentIsUnder(s.t, open.level, parent);
    OpenThenWrite(s.t, open, line.text);
  }

  // ---- the other lines --------------------------------------------------------------------------

  /** The newest chapter, or the root of an act without chapters. */
  predicate IsChapterOf(nodes: seq<Node>, p: int) {
    && 0 <= p < |nodes| && (nodes[p].kind == Chapter || p == 0)
    && forall m :: p < m < |nodes| ==> nodes[m].kind != Chapter
  }

  lemma {:induction false} ChapterExists(nodes: seq<Node>, end: nat) returns (p: nat)
    requires 0 < end <= |nodes| && forall m :: end <= m < |nodes| ==> nodes[m].kind != Chapter
    ensures IsChapterOf(nodes, p)
  {
    if end == 1 || nodes[end - 1].kind == Chapter {
      p := end - 1;
    } else {
      p := ChapterExists(nodes, end - 1);
    }
  }

  lemma RootIsUnder(t: Tree)
    requires Outline(t) && Grammar(t.nodes)
    ensures t.nodes != [] && Under(t.nodes, LEVEL_PART, 0)
  {
    KnownLevel(t.nodes, 0);
    forall m | 0 < m < |t.nodes|
      ensures t.nodes[m].level >= LEVEL_PART
    {
      KnownLevel(t.nodes, m);
      assert NearestShallower(t.nodes, m) && Holds(t.nodes[t.nodes[m].parent].kind, t.nodes[m].kind);
    }
  }

  lemma ChapterIsUnder(t: Tree, p: int)
    requires Outline(t) && Grammar(t.nodes) && AnnexIsLast(t.nodes, false) && IsChapterOf(t.nodes, p)
    ensures Under(t.nodes, LEVEL_SECTION, p)
  {
    KnownLevel(t.nodes, p);
    forall m | p < m < |t.nodes|
      ensures t.nodes[m].level >= LEVEL_SECTION
    {
      KnownLevel(t.nodes, m);
      NoSchedule(t.nodes, m);
      assert NearestShallower(t.nodes, m) && Holds(t.nodes[t.nodes[m].parent].kind, t.nodes[m].kind);
    }
  }

  lemma ArticleIsUnder(t: Tree, n: int)
    requires Grammar(t.nodes) && IsOpenArticle(t.nodes, n)
    ensures Under(t.nodes, LEVEL_SUBSECTION, n)
  {
    KnownLevel(t.nodes, n);
  }

  /** An annex is a schedule under the root, named by its whole line. */
  lemma AnnexOpens(s: State, line: Line)
    requires Ready(s) && WellClassified(line) && Grammar(s.t.nodes) && line.Annex?
    ensures Opens(s.t, Consumed(s, line).t, Schedule, line.raw, line.slug, 0, LEVEL_PART, "", "")
    ensures Consumed(s, line).f == s.f.(inAnnex := true)
  {
    var open := Open(Schedule, line.raw, LEVEL_PART, line.slug);
    RootIsUnder(s.t);
    hide Grammar, ActAll, Consumed, InArticle, Under, Opens, Outline, UniquePaths;
    ConsumedIs(s, line);
    ParentIsUnder(s.t, LEVEL_PART, 0);
    OpenAlone(s.t, open);
  }

  /** A chapter is under the root, with its number in capitals and its title as heading. */
  lemma ChapterOpens(s: State, line: Line)
    requires Ready(s) && WellClassified(line) && Grammar(s.t.nodes) && line.ChapterLine? && !s.f.inAnnex
    ensures Opens(s.t, Consumed(s, line).t, Chapter, "Chapter " + Upper(line.num), "chapter-" + Lower(line.num), 0, LEVEL_PART, line.title, "")
    ensures Consumed(s, line).f == s.f
  {
    var open := Open(Chapter, "Chapter " + Upper(line.num), LEVEL_PART, "chapter-" + Lower(line.num));
    RootIsUnder(s.t);
    hide Grammar, ActAll, Consumed, InArticle, Under, Opens, Outline, UniquePaths, Upper, Lower;
    ConsumedIs(s, line);
    ParentIsUnder(s.t, LEVEL_PART, 0);
    if line.title == "" { OpenAlone(s.t, open); } else { OpenThenHead(s.t, open, line.title); }
  }

  /** A subsection of the open article, with its text. */
  lemma NumberedUnder(t: Tree, num: string, text: string) returns (article: nat)
    requires Sound(t) && Grammar(t.nodes) && InRange(t) && InArticle(t)
    requires PlainActions(NumberedActions(num, text)) && text != ""
    ensures IsOpenArticle(t.nodes, article)
    ensures Opens(t, ActAll(t, NumberedActions(num, text)), Subsection, "(" + num + ")", "subsection-" + Lower(num), article, LEVEL_SUBSECTION, "", text)
  {
    var open := Open(Subsection, "(" + num + ")", LEVEL_SUBSECTION, "subsection-" + Lower(num));
    InArticleMeans(t);
    article :| IsOpenArticle(t.nodes, article);
    hide Grammar, ActAll, InArticle, Under, Opens, Outline, UniquePaths, Lower, InRange, IsOpenArticle;
    ArticleIsUnder(t, article);
    ParentIsUnder(t, LEVEL_SUBSECTION, article);
    OpenThenWrite(t, open, text);
  }

  /** A numbered line inside an article is a subsection of that article, and begins a list of its own. */
  lemma NumberedOpens(s: State, line: Line) returns (article: nat)
    requires Ready(s) && WellClassified(line) && Grammar(s.t.nodes) && line.NumberedLine? && !s.f.inAnnex
    requires InRange(s.t) && InArticle(s.t)
    ensures IsOpenArticle(s.t.nodes, article)
    ensures Opens(s.t, Consumed(s, line).t, Subsection, "(" + line.num + ")", "subsection-" + Lower(line.num), article, LEVEL_SUBSECTION, "", line.text)
    ensures Consumed(s, line).f == s.f.(lastItem := "")
  {
    hide Grammar, ActAll, Consumed, InArticle, Opens, Sound, NumberedActions, InRange, IsOpenArticle, PlainActions;
    ConsumedIs(s, line);
    article := NumberedUnder(s.t, line.num, line.text);
  }

  function ArticleNode(num: string): Action { Open(Section, "Article " + num, LEVEL_SECTION, "section-" + Lower(num)) }

  function OwnText(rest: Rest): string { if rest.Words? then rest.text else "" }

  lemma ArticleAlone(t: Tree, num: string, rest: Rest, chapter: nat)
    requires Sound(t) && PlainActions(ArticleActions(num, rest)) && !rest.Numbered? && (rest.Words? ==> rest.text != "")
    requires InRange(t) && ParentFor(t, LEVEL_SECTION) == chapter
    ensures Opens(t, ActAll(t, ArticleActions(num, rest)), Section, "Article " + num, "section-" + Lower(num), chapter, LEVEL_SECTION, "", OwnText(rest))
  {
    hide ActAll, Act, Opens, Sound, ParentFor, PlainAction, Lower;
    if rest.Words? {
      assert ArticleActions(num, rest) == [ArticleNode(num), Write(rest.text)];
      OpenThenWrite(t, ArticleNode(num), rest.text);
    } else {
      assert ArticleActions(num, rest) == [ArticleNode(num)];
      OpenAlone(t, ArticleNode(num));
    }
  }

  lemma ArticleWithNumbered(t: Tree, num: string, rest: Rest, chapter: nat, lastArt: int)
    requires Sound(t) && PlainActions(ArticleActions(num, rest)) && rest.Numbered? && rest.text != ""
    requires Grammar(t.nodes) && AnnexIsLast(t.nodes, false) && Accepts(lastArt, num)
    requires InRange(t) && ParentFor(t, LEVEL_SECTION) == chapter
    ensures PlainAction(ArticleNode(num))
    ensures
      var mid := Act(t, ArticleNode(num));
      && Opens(t, mid, Section, "Article " + num, "section-" + Lower(num), chapter, LEVEL_SECTION, "", "")
      && Opens(mid, ActAll(t, ArticleActions(num, rest)), Subsection, "(" + rest.num + ")", "subsection-" + Lower(rest.num), |t.nodes|, LEVEL_SUBSECTION, "", rest.text)
  {
    hide ActAll, Act, Opens, Sound, ParentFor, PlainAction, Lower, Grammar, AnnexIsLast, Accepts, NumberedActions, InRange, LeadingInt;
    var actions := ArticleActions(num, rest);
    assert actions == [ArticleNode(num)] + NumberedActions(rest.num, rest.text);
    assert actions[0] == ArticleNode(num) && actions[1..] == NumberedActions(rest.num, rest.text);
    FirstThenRest(t, actions);
    assert PlainActions([ArticleNode(num)]);
    OpenAlone(t, ArticleNode(num));
    OneAction(t, [ArticleNode(num)]);
    ArticleOpens(t, num, rest, lastArt);
    InlineNumbered(t, ArticleNode(num), lastArt, rest.num, rest.text);
  }

  lemma ArticleReaction(s: State, line: Line)
    requires Ready(s) && WellClassified(line) && line.ArticleLine? && !s.f.inAnnex && Accepts(s.f.lastArt, line.num)
    ensures PlainActions(ArticleActions(line.num, line.rest))
    ensures Consumed(s, line) == State(ActAll(s.t, ArticleActions(line.num, line.rest)), Flags(LeadingInt(line.num), "", false))
  {
    hide ActAll, Consumed, InArticle, Sound, Accepts, LeadingInt, ArticleActions, PlainActions;
    ConsumedIs(s, line);
  }

  /** An accepted article is under the newest chapter; what follows on its line is its text, or a subsection of it. */
  lemma ArticleOpensUnder(s: State, line: Line) returns (chapter: nat, mid: Tree)
    requires Ready(s) && WellClassified(line) && Grammar(s.t.nodes) && AnnexIsLast(s.t.nodes, false)
    requires line.ArticleLine? && !s.f.inAnnex && Accepts(s.f.lastArt, line.num)
    ensures IsChapterOf(s.t.nodes, chapter)
    ensures Opens(s.t, mid, Section, "Article " + line.num, "section-" + Lower(line.num), chapter, LEVEL_SECTION, "", OwnText(line.rest))
    ensures
      var after := Consumed(s, line).t;
      if line.rest.Numbered?
      then Opens(mid, after, Subsection, "(" + line.rest.num + ")", "subsection-" + Lower(line.rest.num), |s.t.nodes|, LEVEL_SUBSECTION, "", line.rest.text)
      else after == mid
    ensures Consumed(s, line).f == Flags(LeadingInt(line.num), "", false)
  {
    assert Sound(s.t) && Outline(s.t);
    assert (line.rest.Numbered? || line.rest.Words?) ==> line.rest.text != "";
    hide *;
    chapter := ArticlePlace(s.t);
    ArticleReaction(s, line);
    if line.rest.Numbered? {
      ArticleWithNumbered(s.t, line.num, line.rest, chapter, s.f.lastArt);
      mid := Act(s.t, ArticleNode(line.num));
      NoOwnText(line.rest);
    } else {
      ArticleAlone(s.t, line.num, line.rest, chapter);
      mid := Consumed(s, line).t;
    }
  }

  lemma NoOwnText(rest: Rest)
    requires rest.Numbered?
    ensures OwnText(rest) == ""
  {
  }

  lemma ArticlePlace(t: Tree) returns (chapter: nat)
    requires Outline(t) && Grammar(t.nodes) && AnnexIsLast(t.nodes, false)
    ensures IsChapterOf(t.nodes, chapter) && InRange(t) && ParentFor(t, LEVEL_SECTION) == chapter
  {
    OutlineInRange(t);
    chapter := ChapterExists(t.nodes, |t.nodes|);
    ChapterIsUnder(t, chapter);
    ParentIsUnder(t, LEVEL_SECTION, chapter);
  }

  /** What follows on an article's own line is that article's. */
  lemma InlineNumbered(t: Tree, open: Action, lastArt: int, num: string, text: string)
    requires Sound(t) && Grammar(t.nodes) && AnnexIsLast(t.nodes, false) && PlainAction(open)
    requires InRange(t) && Permits(t, lastArt, false, open) && open.Open? && open.kind == Section && open.level == LEVEL_SECTION
    requires PlainActions(NumberedActions(num, text)) && text != ""
    ensures Opens(Act(t, open), ActAll(Act(t, open), NumberedActions(num, text)),
                  Subsection, "(" + num + ")", "subsection-" + Lower(num), |t.nodes|, LEVEL_SUBSECTION, "", text)
  {
    hide Grammar, ActAll, Act, Sound, InArticle, Opens, NumberedActions, InRange, AnnexIsLast, Permits, PlainAction, PlainActions, ParentFor;
    ActKeepsGrammar(t, open, lastArt, false);
    OpenedSectionIsInside(t, open);
    OpenAdds(t, open);
    var article := NumberedUnder(Act(t, open), num, text);
    assert article == |t.nodes|;
  }

  /** Any other line is text for the newest node. */
  predicate IsText(s: State, line: Line)
    requires InRange(s.t)
  {
    && !line.Annex?
    && (s.f.inAnnex || line.Other? || (line.ArticleLine? && !Accepts(s.f.lastArt, line.num))
        || ((line.NumberedLine? || line.LetteredLine?) && !InArticle(s.t)))
  }

  lemma OthersAreText(s: State, line: Line)
    requires Ready(s) && WellClassified(line) && InRange(s.t) && IsText(s, line)
    ensures Consumed(s, line) == State(WithText(s.t, line.raw), s.f)
  {
    hide ActAll, Act, Consumed, InArticle, Sound, InRange, Accepts, IsSubItem, WithText, PlainActions;
    ConsumedIs(s, line);
    assert Reaction(s.f, InArticle(s.t), line) == (s.f, [Write(line.raw)]);
    OneAction(s.t, [Write(line.raw)]);
    ActFills(s.t, line.raw);
  }

  // ---- the lists stay in order --------------------------------------------------------------------

  lemma TextKeepsLists(s: State, text: string)
    requires InRange(s.t) && Lists(s)
    ensures Lists(State(WithText(s.t, text), s.f))
  {
    var before, after := s.t.nodes, WithText(s.t, text).nodes;
    assert forall n :: 0 <= n < |before| ==>
      && after[n].kind == before[n].kind && after[n].parent == before[n].parent
      && after[n].name == before[n].name && after[n].level == before[n].level;
    forall host | IsHost(after, host)
      ensures ListsTo(after, host, s.f.lastItem)
    {
      assert IsHost(before, host) && ListsTo(before, host, s.f.lastItem);
      if s.f.lastItem != "" {
        var c :| ItemOf(before, host, s.f.lastItem, c);
        assert ItemOf(after, host, s.f.lastItem, c);
      }
    }
  }

  /** A schedule or chapter leaves no host; an article or numbered paragraph is the host itself. */
  lemma HeadKeepsLists(
    t: Tree, s: State, kind: Kind, name: string, seg: string, parent: nat, level: nat, heading: string,
    content: string)
    requires Opens(t, s.t, kind, name, seg, parent, level, heading, content)
    requires kind == Schedule || kind == Chapter || ((kind == Section || kind == Subsection) && s.f.lastItem == "")
    ensures Lists(s)
  {
    var nodes := s.t.nodes;
    forall host | IsHost(nodes, host)
      ensures ListsTo(nodes, host, s.f.lastItem)
    {
      if host < |nodes| - 1 { assert nodes[|nodes| - 1].kind == Paragraph; }
    }
  }

  lemma ItemKeepsLists(s: State, next: State, host: nat, parent: nat, tok: string, sub: bool, seg: string, text: string)
    requires IsHost(s.t.nodes, host) && ListsTo(s.t.nodes, host, s.f.lastItem) && tok != ""
    requires if sub && s.f.lastItem != "" then ItemOf(s.t.nodes, host, s.f.lastItem, parent) else parent == host
    requires Opens(s.t, next.t, Paragraph, "(" + tok + ")", seg, parent,
                   if sub then LEVEL_SUBPARAGRAPH else LEVEL_PARAGRAPH, "", text)
    requires next.f.lastItem == if sub then s.f.lastItem else tok
    ensures Lists(next)
  {
    var before, after := s.t.nodes, next.t.nodes;
    forall h | IsHost(after, h)
      ensures ListsTo(after, h, next.f.lastItem)
    {
      SameHost(before, after, host, h);
      if !sub {
        assert ItemOf(after, host, tok, |before|);
      } else if s.f.lastItem != "" {
        assert ItemOf(after, host, s.f.lastItem, parent);
      }
    }
  }

  lemma SameHost(before: seq<Node>, after: seq<Node>, host: int, h: int)
    requires IsHost(before, host) && IsHost(after, h) && |after| == |before| + 1 && after[|before|].kind == Paragraph
    requires forall n :: 0 <= n < |before| ==> after[n].kind == before[n].kind
    ensures h == host
  {
  }

  lemma LineKeepsLists(s: State, line: Line)
    requires Ready(s) && WellClassified(line) && Lawful(s.t.nodes, s.f.lastArt, s.f.inAnnex) && Lists(s)
    ensures Lists(Consumed(s, line))
  {
    OutlineInRange(s.t);
    var next := Consumed(s, line);
    hide Lists, Consumed, Sound, Opens, ItemOf, ListsTo, IsHost, InArticle, Grammar, AnnexIsLast, Accepts, InRange, Outline,
      UniquePaths, IsSubItem, IsNewestChild, LeadingInt, Steps, Numbers, WithText;
    if IsText(s, line) {
      OthersAreText(s, line);
      TextKeepsLists(s, line.raw);
    } else if line.Annex? {
      AnnexOpens(s, line);
      HeadKeepsLists(s.t, next, Schedule, line.raw, line.slug, 0, LEVEL_PART, "", "");
    } else if line.ChapterLine? {
      ChapterOpens(s, line);
      HeadKeepsLists(s.t, next, Chapter, "Chapter " + Upper(line.num), "chapter-" + Lower(line.num), 0, LEVEL_PART, line.title, "");
    } else if line.ArticleLine? {
      ArticleKeepsLists(s, line);
    } else if line.NumberedLine? {
      var article := NumberedOpens(s, line);
      HeadKeepsLists(s.t, next, Subsection, "(" + line.num + ")", "subsection-" + Lower(line.num), article, LEVEL_SUBSECTION, "", line.text);
    } else {
      LetteredKeepsLists(s, line);
    }
  }

  lemma ArticleKeepsLists(s: State, line: Line)
    requires Ready(s) && WellClassified(line) && Lawful(s.t.nodes, s.f.lastArt, false)
    requires line.ArticleLine? && !s.f.inAnnex && Accepts(s.f.lastArt, line.num)
    ensures Lists(Consumed(s, line))
  {
    hide Lists, Consumed, Sound, Opens, Grammar, AnnexIsLast, Accepts, IsChapterOf, LeadingInt, Steps, Numbers;
    var next := Consumed(s, line);
    var chapter, mid := ArticleOpensUnder(s, line);
    if line.rest.Numbered? {
      HeadKeepsLists(mid, next, Subsection, "(" + line.rest.num + ")", "subsection-" + Lower(line.rest.num), |s.t.nodes|, LEVEL_SUBSECTION, "", line.rest.text);
    } else {
      HeadKeepsLists(s.t, next, Section, "Article " + line.num, "section-" + Lower(line.num), chapter, LEVEL_SECTION, "", OwnText(line.rest));
    }
  }

  lemma LetteredKeepsLists(s: State, line: Line)
    requires Ready(s) && WellClassified(line) && Grammar(s.t.nodes) && Lists(s)
    requires line.LetteredLine? && !s.f.inAnnex && InRange(s.t) && InArticle(s.t)
    ensures Lists(Consumed(s, line))
  {
    var host, parent := LetteredOpens(s, line);
    var sub := IsSubItem(s.f.lastItem, line.tok);
    assert ListsTo(s.t.nodes, host, s.f.lastItem);
    hide Consumed, Sound, Opens, Grammar, ItemOf, ListsTo, IsHost, InArticle, InRange, IsSubItem, IsNewestChild, Lists;
    ItemKeepsLists(s, Consumed(s, line), host, parent, line.tok, sub,
                   (if sub then "subparagraph-" else "paragraph-") + line.tok, line.text);
  }

  /** In every parsed act. */
  lemma {:induction false} AlwaysLists(lines: seq<Line>)
    requires AllWell(lines)
    ensures Lists(Parsed(lines))
  {
    if lines != [] {
      var before := lines[..|lines| - 1];
      AlwaysLists(before);
      AlwaysLawful(before);
      hide Lists, Consumed, Lawful, WellClassified;
      LineKeepsLists(Parsed(before), lines[|lines| - 1]);
    }
  }

  /** The token that a sub-item of the next line would hang under: an item of the host's list, its newest child. */
  lemma LastItemMeans(lines: seq<Line>, host: nat)
    requires AllWell(lines) && IsHost(Parsed(lines).t.nodes, host)
    ensures
      var nodes, last := Parsed(lines).t.nodes, Parsed(lines).f.lastItem;
      if last == "" then forall m :: host < m < |nodes| ==> nodes[m].parent == host
      else exists c :: IsNewestChild(nodes, host, c) && nodes[c].name == "(" + last + ")"
                       && forall m :: c < m < |nodes| ==> nodes[m].parent == c
  {
    AlwaysLists(lines);
    AlwaysLawful(lines);
    var s := Parsed(lines);
    assert ListsTo(s.t.nodes, host, s.f.lastItem);
    hide Parsed, Grammar, Numbers, Steps, AnnexIsLast;
    if s.f.lastItem != "" {
      var c :| ItemOf(s.t.nodes, host, s.f.lastItem, c);
      assert IsNewestChild(s.t.nodes, host, c);
    }
  }

  /** A lettered line of an act, by what was parsed before it. */
  lemma ParsedItem(lines: seq<Line>, line: Line) returns (host: nat, parent: nat)
    requires AllWell(lines) && WellClassified(line) && line.LetteredLine? && !Parsed(lines).f.inAnnex
    requires InRange(Parsed(lines).t) && InArticle(Parsed(lines).t)
    ensures AllWell(lines + [line]) && IsHost(Parsed(lines).t.nodes, host)
    ensures
      var before, after, last := Parsed(lines).t, Parsed(lines + [line]).t, Parsed(lines).f.lastItem;
      var sub := IsSubItem(last, line.tok);
      && (if sub && last != "" then IsNewestChild(before.nodes, host, parent) && before.nodes[parent].name == "(" + last + ")"
          else parent == host)
      && Adds(before.nodes, after.nodes, Paragraph, "(" + line.tok + ")", parent)
      && after.nodes[|before.nodes|].content == line.text
      && Parsed(lines + [line]).f.lastItem == (if sub then last else line.tok)
  {
    AlwaysLists(lines);
    AlwaysLawful(lines);
    assert (lines + [line])[..|lines|] == lines;
    var s := Parsed(lines);
    assert Parsed(lines + [line]) == Consumed(s, line);
    hide Parsed, Consumed, Lists, InArticle, IsHost, IsNewestChild, ItemOf, IsSubItem, Adds, InRange;
    host, parent := LetteredOpens(s, line);
  }
}
