/**
  The line-by-line parser of Cambodian acts. Lines arrive already classified and
  trimmed; the parser decides what opens a node and what is text.
 */
module ActParser {
  import opened OutlineTree
  import opened OutlinePaths
  import opened Strings

  const LEVEL_PART := 0
  const LEVEL_SECTION := 2
  const LEVEL_SUBSECTION := 3
  const LEVEL_PARAGRAPH := 4
  const LEVEL_SUBPARAGRAPH := 5

  /** What follows an article marker on its own line. */
  datatype Rest = Nothing | Numbered(num: string, text: string) | Words(text: string)

  /** A line by the first pattern it matches; `raw` is the whole line. */
  datatype Line =
    | Annex(raw: string, slug: string)
    | ChapterLine(raw: string, num: string, title: string)
    | ArticleLine(raw: string, num: string, rest: Rest)
    | NumberedLine(raw: string, num: string, text: string)
    | LetteredLine(raw: string, tok: string, text: string)
    | Other(raw: string)

  /** What the patterns guarantee: captured text and letters are not empty, captured numbers hold no slash. */
  predicate WellClassified(line: Line) {
    && line.raw != ""
    && match line
       case Annex(_, slug) => Plain(slug)
       case ChapterLine(_, num, _) => '/' !in num
       case ArticleLine(_, num, rest) =>
         && '/' !in num
         && (rest.Numbered? ==> rest.text != "" && '/' !in rest.num)
         && (rest.Words? ==> rest.text != "")
       case NumberedLine(_, num, text) => '/' !in num && text != ""
       case LetteredLine(_, tok, text) => tok != "" && '/' !in tok && text != ""
       case Other(_) => true
  }

  // ---- numbers and numerals ------------------------------------------------------------

  function Lower(s: string): (r: string)
    ensures |r| == |s| && ('/' !in s ==> '/' !in r)
  {
    seq(|s|, i requires 0 <= i < |s| => if 'A' <= s[i] <= 'Z' then s[i] - 'A' + 'a' else s[i])
  }

  function Upper(s: string): string {
    seq(|s|, i requires 0 <= i < |s| => if 'a' <= s[i] <= 'z' then s[i] - 'a' + 'A' else s[i])
  }

  /** No capital is left, or only capitals are, and the letters are the same. */
  lemma CaseFolds(s: string)
    ensures forall i :: 0 <= i < |s| ==> !('A' <= Lower(s)[i] <= 'Z')
    ensures |Upper(s)| == |s| && forall i :: 0 <= i < |s| ==> !('a' <= Upper(s)[i] <= 'z')
    ensures Upper(Lower(s)) == Upper(s) && Lower(Upper(s)) == Lower(s)
  {
  }

  const MAX_INT: nat := 0x7FFF_FFFF_FFFF_FFFF

  function LeadingDigits(s: string): string {
    if s == "" || !('0' <= s[0] <= '9') then "" else [s[0]] + LeadingDigits(s[1..])
  }

  function Value(digits: string): int {
    if digits == "" then 0 else 10 * Value(digits[..|digits| - 1]) + (digits[|digits| - 1] as int - '0' as int)
  }

  /** The number at the start, clamped to the widest integer; zero without digits. */
  function LeadingInt(s: string): int {
    var n := Value(LeadingDigits(s));
    if n > MAX_INT then MAX_INT else n
  }

  predicate IsRomanLower(s: string) {
    s != "" && exists k :: 0 <= k <= 3 && k <= |s| && RomanAfterTens(s, k)
  }

  predicate RomanAfterTens(s: string, k: nat)
    requires k <= |s|
  {
    && (forall i :: 0 <= i < k ==> s[i] == 'x')
    && s[k..] in {"", "i", "ii", "iii", "iv", "v", "vi", "vii", "viii", "ix"}
  }

  // ---- what a line does ----------------------------------------------------------------

  datatype Action =
    | Open(kind: Kind, name: string, level: nat, seg: string)
    | Write(text: string)
    | Head(text: string)

  /** The parser's own flags. */
  datatype Flags = Flags(lastArt: int, lastItem: string, inAnnex: bool)

  /** The next number in line, or the last one again with something after its digits. */
  predicate Accepts(lastArt: int, num: string) {
    var base := LeadingInt(num);
    base == lastArt + 1 || (base == lastArt && base > 0 && |Itoa(base)| < |num|)
  }

  predicate IsSubItem(lastItem: string, tok: string) {
    IsRomanLower(tok)
    && (|tok| > 1 || (tok == "i" && lastItem != "h") || (tok == "v" && lastItem != "u") || (tok == "x" && lastItem != "w"))
  }

  function NumberedActions(num: string, text: string): seq<Action> {
    [Open(Subsection, "(" + num + ")", LEVEL_SUBSECTION, "subsection-" + Lower(num)), Write(text)]
  }

  function RestActions(rest: Rest): seq<Action> {
    match rest
    case Nothing => []
    case Numbered(num, text) => NumberedActions(num, text)
    case Words(text) => [Write(text)]
  }

  function ChapterActions(num: string, title: string): seq<Action> {
    var open := Open(Chapter, "Chapter " + Upper(num), LEVEL_PART, "chapter-" + Lower(num));
    if title != "" then [open, Head(title)] else [open]
  }

  function ArticleActions(num: string, rest: Rest): seq<Action> {
    [Open(Section, "Article " + num, LEVEL_SECTION, "section-" + Lower(num))] + RestActions(rest)
  }

  function LetteredActions(sub: bool, tok: string, text: string): seq<Action> {
    [if sub then Open(Paragraph, "(" + tok + ")", LEVEL_SUBPARAGRAPH, "subparagraph-" + tok)
     else Open(Paragraph, "(" + tok + ")", LEVEL_PARAGRAPH, "paragraph-" + tok), Write(text)]
  }

  function Reaction(f: Flags, inArticle: bool, line: Line): (Flags, seq<Action>) {
    if line.Annex? then (f.(inAnnex := true), [Open(Schedule, line.raw, LEVEL_PART, line.slug)])
    else if f.inAnnex then (f, [Write(line.raw)])
    else match line
      case ChapterLine(_, num, title) =>
        (f, ChapterActions(num, title))
      case ArticleLine(_, num, rest) =>
        if Accepts(f.lastArt, num)
        then (Flags(LeadingInt(num), "", false), ArticleActions(num, rest))
        else (f, [Write(line.raw)])
      case NumberedLine(_, num, text) =>
        if inArticle then (f.(lastItem := ""), NumberedActions(num, text)) else (f, [Write(line.raw)])
      case LetteredLine(_, tok, text) =>
        if inArticle then
          var sub := IsSubItem(f.lastItem, tok);
          (if sub then f else f.(lastItem := tok), LetteredActions(sub, tok, text))
        else (f, [Write(line.raw)])
      case Other(_) => (f, [Write(line.raw)])
  }

  predicate InArticle(t: Tree)
    requires InRange(t)
  {
    exists i :: 0 <= i < |t.stack| && t.nodes[t.stack[i]].kind == Section
  }

  // ---- the tree after an action --------------------------------------------------------

  function Pushed(t: Tree, kind: Kind, name: string, level: int, seg: string): Tree
    requires InRange(t)
  {
    Opened(t, kind, name, level, FirstFree(t.nodes, t.nodes[ParentFor(t, level)].children, seg, 1))
  }

  ghost predicate Sound(t: Tree) { Outline(t) && UniquePaths(t.nodes) }

  predicate PlainAction(a: Action) {
    match a
    case Open(_, _, _, seg) => Plain(seg)
    case Write(text) => text != ""
    case Head(_) => true
  }

  ghost function Act(t: Tree, a: Action): (after: Tree)
    requires Sound(t) && PlainAction(a)
    ensures Sound(after)
  {
    ActKeepsSound(t, a);
    match a
    case Open(kind, name, level, seg) => Pushed(t, kind, name, level, seg)
    case Write(text) => WithText(t, text)
    case Head(text) => WithHeading(t, text)
  }

  lemma ActKeepsSound(t: Tree, a: Action)
    requires Sound(t) && PlainAction(a)
    ensures match a
      case Open(kind, name, level, seg) => Sound(Pushed(t, kind, name, level, seg))
      case Write(text) => Sound(WithText(t, text))
      case Head(text) => Sound(WithHeading(t, text))
  {
    hide Outline, UniquePaths, Opened, FirstFree, Variant;
    match a
    case Open(kind, name, level, seg) =>
      assert InRange(t) by { OutlineInRange(t); }
      var chosen := FirstFree(t.nodes, t.nodes[ParentFor(t, level)].children, seg, 1);
      var m :| m >= 1 && chosen == Variant(seg, m);
      PlainVariant(seg, m);
      OpenedKeepsOutline(t, kind, name, level, chosen);
      OpenedKeepsPaths(t, kind, name, level, chosen);
    case Write(text) =>
      OutlineInRange(t);
      SameShapeKeepsOutline(t, WithText(t, text));
      SamePathsStayUnique(t.nodes, WithText(t, text).nodes);
    case Head(text) =>
      OutlineInRange(t);
      SameShapeKeepsOutline(t, WithHeading(t, text));
      SamePathsStayUnique(t.nodes, WithHeading(t, text).nodes);
  }

  lemma OutlineInRange(t: Tree)
    requires Outline(t)
    ensures InRange(t) && StackIsPath(t)
  {
  }

  predicate PlainActions(actions: seq<Action>) {
    forall k :: 0 <= k < |actions| ==> PlainAction(actions[k])
  }

  ghost function ActAll(t: Tree, actions: seq<Action>): (after: Tree)
    requires Sound(t) && PlainActions(actions)
    ensures Sound(after)
  {
    if actions == [] then t else Act(ActAll(t, actions[..|actions| - 1]), actions[|actions| - 1])
  }

  lemma PlainAfter(prefix: string, s: string)
    requires Plain(prefix) && '/' !in s
    ensures Plain(prefix + s)
  {
  }

  lemma NumberedIsPlain(num: string, text: string)
    requires '/' !in num && text != ""
    ensures PlainActions(NumberedActions(num, text))
  {
    PlainAfter("subsection-", Lower(num));
  }

  lemma ReactionIsPlain(f: Flags, inArticle: bool, line: Line)
    requires WellClassified(line)
    ensures PlainActions(Reaction(f, inArticle, line).1)
  {
    match line
    case Annex(_, _) =>
    case ChapterLine(_, num, _) => PlainAfter("chapter-", Lower(num));
    case ArticleLine(_, num, rest) =>
      PlainAfter("section-", Lower(num));
      if rest.Numbered? { NumberedIsPlain(rest.num, rest.text); }
    case NumberedLine(_, num, text) => NumberedIsPlain(num, text);
    case LetteredLine(_, tok, _) =>
      PlainAfter("paragraph-", tok);
      PlainAfter("subparagraph-", tok);
    case Other(_) =>
  }

  // ---- a whole document ----------------------------------------------------------------

  datatype State = State(t: Tree, f: Flags)

  ghost predicate Ready(s: State) { Sound(s.t) }

  ghost function Consumed(s: State, line: Line): (after: State)
    requires Ready(s) && WellClassified(line)
    ensures Ready(after)
  {
    ReactionIsPlain(s.f, InArticle(s.t), line);
    var (f, actions) := Reaction(s.f, InArticle(s.t), line);
    State(ActAll(s.t, actions), f)
  }

  lemma EmptyIsSound()
    ensures Sound(EMPTY_TREE)
  {
    EmptyOutline();
  }

  predicate AllWell(lines: seq<Line>) { forall i :: 0 <= i < |lines| ==> WellClassified(lines[i]) }

  ghost function Parsed(lines: seq<Line>): (s: State)
    requires AllWell(lines)
    ensures Ready(s)
  {
    EmptyIsSound();
    if lines == [] then State(EMPTY_TREE, Flags(0, "", false))
    else Consumed(Parsed(lines[..|lines| - 1]), lines[|lines| - 1])
  }

  /** Everything the lines made the parser do. */
  ghost function Script(lines: seq<Line>): (actions: seq<Action>)
    requires AllWell(lines)
    ensures PlainActions(actions)
  {
    if lines == [] then [] else
      var s, line := Parsed(lines[..|lines| - 1]), lines[|lines| - 1];
      ReactionIsPlain(s.f, InArticle(s.t), line);
      Script(lines[..|lines| - 1]) + Reaction(s.f, InArticle(s.t), line).1
  }

  lemma {:induction false} ActAllTwice(t: Tree, a: seq<Action>, b: seq<Action>)
    requires Sound(t) && PlainActions(a) && PlainActions(b)
    ensures ActAll(t, a + b) == ActAll(ActAll(t, a), b)
  {
    hide Sound, PlainAction, Act;
    if b == [] {
      assert a + b == a;
    } else {
      assert (a + b)[..|a + b| - 1] == a + b[..|b| - 1];
      ActAllTwice(t, a, b[..|b| - 1]);
    }
  }

  lemma OneAction(t: Tree, actions: seq<Action>)
    requires Sound(t) && PlainActions(actions) && |actions| == 1
    ensures PlainAction(actions[0]) && ActAll(t, actions) == Act(t, actions[0])
  {
    hide Sound, PlainAction, Act;
    assert actions[..0] == [];
    assert ActAll(t, []) == t;
  }

  lemma FirstThenRest(t: Tree, actions: seq<Action>)
    requires Sound(t) && PlainActions(actions) && actions != []
    ensures PlainAction(actions[0]) && PlainActions(actions[1..])
    ensures ActAll(t, actions) == ActAll(Act(t, actions[0]), actions[1..])
  {
    hide Sound, PlainAction, Act;
    OneAction(t, [actions[0]]);
    assert actions == [actions[0]] + actions[1..];
    ActAllTwice(t, [actions[0]], actions[1..]);
  }

  lemma TwoActions(t: Tree, actions: seq<Action>)
    requires Sound(t) && PlainActions(actions) && |actions| == 2
    ensures PlainAction(actions[0]) && PlainAction(actions[1])
    ensures ActAll(t, actions) == Act(Act(t, actions[0]), actions[1])
  {
    hide Sound, PlainAction, Act;
    assert actions[..1] == [actions[0]] && [actions[0]][..0] == [];
    assert ActAll(t, []) == t;
    assert ActAll(t, [actions[0]]) == Act(t, actions[0]);
  }

  lemma {:induction false} ParsedIsScripted(lines: seq<Line>)
    requires AllWell(lines)
    ensures Sound(EMPTY_TREE) && Parsed(lines).t == ActAll(EMPTY_TREE, Script(lines))
  {
    EmptyIsSound();
    if lines != [] {
      var before, line := lines[..|lines| - 1], lines[|lines| - 1];
      ParsedIsScripted(before);
      var s := Parsed(before);
      ReactionIsPlain(s.f, InArticle(s.t), line);
      ActAllTwice(EMPTY_TREE, Script(before), Reaction(s.f, InArticle(s.t), line).1);
      hide Reaction, Outline, UniquePaths;
    }
  }

  // ---- no text is lost -----------------------------------------------------------------

  predicate HasOpen(actions: seq<Action>) { exists k :: 0 <= k < |actions| && actions[k].Open? }

  /** The fragments written once something is open. */
  function KeptText(actions: seq<Action>): seq<string> {
    if actions == [] then [] else
      var before, a := actions[..|actions| - 1], actions[|actions| - 1];
      if a.Write? && HasOpen(before) then KeptText(before) + [a.text] else KeptText(before)
  }

  lemma ActSize(t: Tree, a: Action)
    requires Sound(t) && PlainAction(a)
    ensures |Act(t, a).nodes| == |t.nodes| + if a.Open? then 1 else 0
    ensures |t.nodes| >= 1
    ensures TextOf(Act(t, a)) == if a.Write? && |t.nodes| > 1 then Joined(TextOf(t), a.text) else TextOf(t)
  {
    hide Outline, UniquePaths, TextOf, FirstFree;
    OutlineInRange(t);
    match a
    case Open(kind, name, level, seg) =>
      OpeningAddsNoText(t, kind, name, level, FirstFree(t.nodes, t.nodes[ParentFor(t, level)].children, seg, 1));
    case Write(text) => if |t.nodes| > 1 { TextIsAppended(t, text); }
    case Head(text) => HeadingAddsNoText(t, text);
  }

  lemma EmptyText()
    ensures Outline(EMPTY_TREE) && TextOf(EMPTY_TREE) == ""
  {
    EmptyOutline();
    PreorderIsCreationOrder(EMPTY_TREE);
    var contents := ContentsInOrder(EMPTY_TREE.nodes, Range(0, 1));
    assert contents == [""] && contents[..0] == [];
  }

  lemma KeptOneMore(before: seq<Action>, a: Action)
    requires PlainAction(a)
    ensures HasOpen(before + [a]) <==> HasOpen(before) || a.Open?
    ensures Text(KeptText(before + [a]))
         == if a.Write? && HasOpen(before) then Joined(Text(KeptText(before)), a.text) else Text(KeptText(before))
  {
    var actions, kept := before + [a], KeptText(before);
    assert actions[..|before|] == before && actions[|before|] == a;
    assert HasOpen(before) ==> HasOpen(actions) by {
      if k :| 0 <= k < |before| && before[k].Open? { assert actions[k].Open?; }
    }
    if a.Write? { assert (kept + [a.text])[..|kept|] == kept; }
  }

  lemma {:induction false} ScriptText(actions: seq<Action>)
    requires PlainActions(actions)
    ensures Sound(EMPTY_TREE)
    ensures TextOf(ActAll(EMPTY_TREE, actions)) == Text(KeptText(actions))
    ensures |ActAll(EMPTY_TREE, actions).nodes| > 1 <==> HasOpen(actions)
  {
    EmptyIsSound();
    hide Outline, UniquePaths, TextOf, Act, PlainAction;
    if actions == [] {
      EmptyText();
    } else {
      var before, a := actions[..|actions| - 1], actions[|actions| - 1];
      assert actions == before + [a];
      ScriptText(before);
      ActSize(ActAll(EMPTY_TREE, before), a);
      KeptOneMore(before, a);
      hide KeptText, HasOpen, Text, Joined;
    }
  }

  /** Read in pre-order, a parsed act holds every fragment written after its first heading, once and in order. */
  lemma TextIsKept(lines: seq<Line>)
    requires AllWell(lines)
    ensures TextOf(Parsed(lines).t) == Text(KeptText(Script(lines)))
  {
    ParsedIsScripted(lines);
    ScriptText(Script(lines));
  }
}
