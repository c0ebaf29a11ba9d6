/**
  What a parsed act looks like: which kinds nest in which, how article numbers run, and
  that an annex ends everything but schedules.
 */
module ActStructure {
  import opened OutlineTree
  import opened OutlinePaths
  import opened Strings
  import opened ActParser

  // ---- invariants ----------------------------------------------------------------------

  predicate LevelFits(kind: Kind, level: int) {
    match kind
    case Root => level == -1
    case Schedule => level == LEVEL_PART
    case Chapter => level == LEVEL_PART
    case Section => level == LEVEL_SECTION
    case Subsection => level == LEVEL_SUBSECTION
    case Paragraph => level == LEVEL_PARAGRAPH || level == LEVEL_SUBPARAGRAPH
  }

  predicate Holds(parent: Kind, kind: Kind) {
    match kind
    case Root => false
    case Schedule => parent == Root
    case Chapter => parent == Root
    case Section => parent == Root || parent == Chapter
    case Subsection => parent == Section
    case Paragraph => parent == Section || parent == Subsection || parent == Paragraph
  }

  /** The grammar of an act: subsections only in articles, paragraphs only in articles or below. */
  predicate Grammar(nodes: seq<Node>) {
    && (forall n :: 0 <= n < |nodes| ==> LevelFits(nodes[n].kind, nodes[n].level))
    && (forall n :: 0 < n < |nodes| ==>
          nodes[n].parent < |nodes| && Holds(nodes[nodes[n].parent].kind, nodes[n].kind))
  }

  /** Once a schedule is open, every later node is a schedule. */
  predicate AnnexIsLast(nodes: seq<Node>, inAnnex: bool) {
    && (forall m, n :: 0 <= m < n < |nodes| && nodes[m].kind == Schedule ==> nodes[n].kind == Schedule)
    && (inAnnex <==> nodes != [] && nodes[|nodes| - 1].kind == Schedule)
  }

  /** The numbers of the articles, in creation order. */
  function Numbers(nodes: seq<Node>): seq<string> {
    if nodes == [] then [] else
      var before, n := Numbers(nodes[..|nodes| - 1]), nodes[|nodes| - 1];
      if n.kind == Section then before + [if |n.name| >= 8 then n.name[8..] else ""] else before
  }

  /** Each number is accepted after the one before it, the first after zero. */
  predicate Steps(numbers: seq<string>) {
    forall i :: 0 <= i < |numbers| ==> StepAt(numbers, i)
  }

  predicate StepAt(numbers: seq<string>, i: nat)
    requires i < |numbers|
  {
    Accepts(if i == 0 then 0 else LeadingInt(numbers[i - 1]), numbers[i])
  }

  function LastNumber(numbers: seq<string>): int {
    if numbers == [] then 0 else LeadingInt(numbers[|numbers| - 1])
  }

  predicate Lawful(nodes: seq<Node>, lastArt: int, inAnnex: bool) {
    && Grammar(nodes) && AnnexIsLast(nodes, inAnnex)
    && Steps(Numbers(nodes)) && lastArt == LastNumber(Numbers(nodes))
  }

  // ---- one action ----------------------------------------------------------------------

  /** What the parser opens only under the right flags. */
  predicate Permits(t: Tree, lastArt: int, inAnnex: bool, a: Action)
    requires InRange(t)
  {
    a.Open? ==>
      && LevelFits(a.kind, a.level) && a.kind != Root
      && (a.kind != Schedule ==> !inAnnex)
      && (a.kind == Section ==> |a.name| >= 8 && Accepts(lastArt, a.name[8..]))
      && (a.kind == Subsection || a.kind == Paragraph ==> InArticle(t))
  }

  function NextArt(lastArt: int, a: Action): int {
    if a.Open? && a.kind == Section && |a.name| >= 8 then LeadingInt(a.name[8..]) else lastArt
  }

  function NextAnnex(inAnnex: bool, a: Action): bool { if a.Open? then a.kind == Schedule else inAnnex }

  /** What an action changes of kinds, levels, names and parents. */
  lemma ActShape(t: Tree, a: Action)
    requires Sound(t) && PlainAction(a)
    ensures
      var after := Act(t, a);
      && InRange(t) && InRange(after)
      && |after.nodes| == |t.nodes| + (if a.Open? then 1 else 0)
      && (forall n :: 0 <= n < |t.nodes| ==>
            && after.nodes[n].kind == t.nodes[n].kind && after.nodes[n].level == t.nodes[n].level
            && after.nodes[n].name == t.nodes[n].name && after.nodes[n].parent == t.nodes[n].parent)
      && (a.Open? ==>
            var n := after.nodes[|t.nodes|];
            n.kind == a.kind && n.level == a.level && n.name == a.name && n.parent == ParentFor(t, a.level))
      && (!a.Open? ==> after.stack == t.stack)
      && (a.Open? ==> after.stack != [] && after.stack[|after.stack| - 1] == |t.nodes|)
  {
    OutlineInRange(t);
    OutlineInRange(Act(t, a));
    hide Outline, UniquePaths, FirstFree, Closed, CountKind;
  }

  lemma {:induction false} NumbersKept(before: seq<Node>, after: seq<Node>)
    requires |after| == |before|
    requires forall n :: 0 <= n < |before| ==> after[n].kind == before[n].kind && after[n].name == before[n].name
    ensures Numbers(after) == Numbers(before)
  {
    if before != [] { NumbersKept(before[..|before| - 1], after[..|after| - 1]); }
  }

  lemma NumbersAfter(t: Tree, a: Action)
    requires Sound(t) && PlainAction(a)
    ensures Numbers(Act(t, a).nodes) ==
      if a.Open? && a.kind == Section
      then Numbers(t.nodes) + [if |a.name| >= 8 then a.name[8..] else ""] else Numbers(t.nodes)
  {
    ActShape(t, a);
    var after := Act(t, a);
    NumbersKept(t.nodes, after.nodes[..|t.nodes|]);
    hide Act, Sound;
    if !a.Open? { assert after.nodes[..|t.nodes|] == after.nodes; }
  }

  /** A section on the stack stays open under anything deeper, so the parent is it or below it. */
  lemma ParentInArticle(t: Tree, level: int)
    requires Outline(t) && InArticle(t) && Grammar(t.nodes) && level > LEVEL_SECTION
    ensures LEVEL_SECTION <= t.nodes[ParentFor(t, level)].level < level
  {
    hide Outline, Grammar, Closed;
    OutlineInRange(t);
    ClosedStops(t.nodes, t.stack, level);
    var left := Closed(t.nodes, t.stack, level);
    var i :| 0 <= i < |t.stack| && t.nodes[t.stack[i]].kind == Section;
    KnownLevel(t.nodes, t.stack[i]);
    assert i < |left|;
    if i < |left| - 1 { StackLevels(t, i, |left| - 1); }
  }

  lemma KnownLevel(nodes: seq<Node>, n: nat)
    requires Grammar(nodes) && n < |nodes|
    ensures LevelFits(nodes[n].kind, nodes[n].level)
  {
  }

  lemma NoSchedule(nodes: seq<Node>, n: nat)
    requires AnnexIsLast(nodes, false) && n < |nodes|
    ensures nodes[n].kind != Schedule
  {
  }

  lemma ParentIsShallower(t: Tree, level: int)
    requires Outline(t) && level >= 0
    ensures t.nodes[ParentFor(t, level)].level < level
  {
    ClosedStops(t.nodes, t.stack, level);
  }

  lemma ParentHolds(t: Tree, a: Action, lastArt: int, inAnnex: bool)
    requires Sound(t) && Grammar(t.nodes) && AnnexIsLast(t.nodes, inAnnex)
    requires InRange(t) && Permits(t, lastArt, inAnnex, a) && a.Open?
    ensures Holds(t.nodes[ParentFor(t, a.level)].kind, a.kind)
  {
    var parent := ParentFor(t, a.level);
    hide Outline, UniquePaths, Grammar, Closed, InArticle, Accepts, AnnexIsLast, ParentFor;
    ParentIsShallower(t, a.level);
    if a.level > LEVEL_SECTION { ParentInArticle(t, a.level); }
    KnownLevel(t.nodes, parent);
    if !inAnnex { NoSchedule(t.nodes, parent); }
  }

  lemma ActKeepsGrammar(t: Tree, a: Action, lastArt: int, inAnnex: bool)
    requires Sound(t) && PlainAction(a) && Grammar(t.nodes) && AnnexIsLast(t.nodes, inAnnex)
    requires InRange(t) && Permits(t, lastArt, inAnnex, a)
    ensures Grammar(Act(t, a).nodes)
  {
    if a.Open? { ParentHolds(t, a, lastArt, inAnnex); }
    assert a.Open? ==> LevelFits(a.kind, a.level);
    hide *;
    ActShape(t, a);
    GrammarOneMore(t.nodes, Act(t, a).nodes);
  }

  lemma GrammarOneMore(before: seq<Node>, after: seq<Node>)
    requires Grammar(before) && before != [] && |before| <= |after| <= |before| + 1
    requires forall n :: 0 <= n < |before| ==>
      && after[n].kind == before[n].kind && after[n].level == before[n].level && after[n].parent == before[n].parent
    requires |after| > |before| ==>
      var n := after[|before|];
      LevelFits(n.kind, n.level) && n.parent < |before| && Holds(before[n.parent].kind, n.kind)
    ensures Grammar(after)
  {
    forall n | 0 <= n < |after|
      ensures LevelFits(after[n].kind, after[n].level)
    {
      hide *;
      if n < |before| { KnownLevel(before, n); }
    }
    forall n | 0 < n < |after|
      ensures after[n].parent < |after| && Holds(after[after[n].parent].kind, after[n].kind)
    {
      hide *;
      if n < |before| { KnownParent(before, n); }
    }
  }

  lemma KnownParent(nodes: seq<Node>, n: nat)
    requires Grammar(nodes) && 0 < n < |nodes|
    ensures nodes[n].parent < |nodes| && Holds(nodes[nodes[n].parent].kind, nodes[n].kind)
  {
  }

  lemma AnnexOneMore(before: seq<Node>, after: seq<Node>, inAnnex: bool)
    requires AnnexIsLast(before, inAnnex) && |after| == |before| + 1
    requires forall n :: 0 <= n < |before| ==> after[n].kind == before[n].kind
    requires after[|before|].kind == Schedule || !inAnnex
    ensures AnnexIsLast(after, after[|before|].kind == Schedule)
  {
  }

  lemma ActKeepsAnnex(t: Tree, a: Action, lastArt: int, inAnnex: bool)
    requires Sound(t) && PlainAction(a) && AnnexIsLast(t.nodes, inAnnex)
    requires InRange(t) && Permits(t, lastArt, inAnnex, a)
    ensures AnnexIsLast(Act(t, a).nodes, NextAnnex(inAnnex, a))
  {
    hide Act, Sound, Closed, InArticle, Accepts, LevelFits, InRange, PlainAction;
    ActShape(t, a);
    if a.Open? { AnnexOneMore(t.nodes, Act(t, a).nodes, inAnnex); }
  }

  lemma ActKeepsLawful(t: Tree, a: Action, lastArt: int, inAnnex: bool)
    requires Sound(t) && PlainAction(a) && Lawful(t.nodes, lastArt, inAnnex)
    requires InRange(t) && Permits(t, lastArt, inAnnex, a)
    ensures Lawful(Act(t, a).nodes, NextArt(lastArt, a), NextAnnex(inAnnex, a))
  {
    hide Grammar, AnnexIsLast, Act, Sound, Numbers, Accepts, LeadingInt, InArticle, InRange, PlainAction, LevelFits;
    ActKeepsGrammar(t, a, lastArt, inAnnex);
    ActKeepsAnnex(t, a, lastArt, inAnnex);
    NumbersAfter(t, a);
    if a.Open? && a.kind == Section { StepsOneMore(Numbers(t.nodes), a.name[8..]); }
  }

  lemma StepsOneMore(numbers: seq<string>, num: string)
    requires Steps(numbers) && Accepts(LastNumber(numbers), num)
    ensures Steps(numbers + [num])
  {
    hide Accepts, LeadingInt;
    forall i | 0 <= i < |numbers| + 1
      ensures StepAt(numbers + [num], i)
    {
      if i < |numbers| { assert StepAt(numbers, i); }
    }
  }

  // ---- one line ------------------------------------------------------------------------

  lemma LawfulOne(t: Tree, actions: seq<Action>, lastArt: int, inAnnex: bool)
    requires Sound(t) && PlainActions(actions) && |actions| == 1 && Lawful(t.nodes, lastArt, inAnnex)
    requires InRange(t) && Permits(t, lastArt, inAnnex, actions[0])
    ensures Lawful(ActAll(t, actions).nodes, NextArt(lastArt, actions[0]), NextAnnex(inAnnex, actions[0]))
  {
    hide *;
    OneAction(t, actions);
    ActKeepsLawful(t, actions[0], lastArt, inAnnex);
  }

  /** Opening a node and then filling it. */
  lemma LawfulPair(t: Tree, actions: seq<Action>, lastArt: int, inAnnex: bool)
    requires Sound(t) && PlainActions(actions) && |actions| == 2 && Lawful(t.nodes, lastArt, inAnnex)
    requires InRange(t) && Permits(t, lastArt, inAnnex, actions[0]) && !actions[1].Open?
    ensures Lawful(ActAll(t, actions).nodes, NextArt(lastArt, actions[0]), NextAnnex(inAnnex, actions[0]))
  {
    TwoActions(t, actions);
    var first := actions[0];
    var next := Act(t, first);
    ActKeepsLawful(t, first, lastArt, inAnnex);
    assert InRange(next) && Permits(next, NextArt(lastArt, first), NextAnnex(inAnnex, first), actions[1]) by {
      OutlineInRange(next);
    }
    hide *;
    ActKeepsLawful(next, actions[1], NextArt(lastArt, first), NextAnnex(inAnnex, first));
    NextAfterFill(lastArt, inAnnex, first, actions[1]);
  }

  lemma NextAfterFill(lastArt: int, inAnnex: bool, first: Action, fill: Action)
    requires !fill.Open?
    ensures NextArt(NextArt(lastArt, first), fill) == NextArt(lastArt, first)
    ensures NextAnnex(NextAnnex(inAnnex, first), fill) == NextAnnex(inAnnex, first)
  {
  }

  /** A new article is itself open. */
  lemma OpenedSectionIsInside(t: Tree, a: Action)
    requires Sound(t) && PlainAction(a) && a.Open? && a.kind == Section
    ensures InRange(Act(t, a)) && InArticle(Act(t, a))
  {
    ActShape(t, a);
    hide Act, Sound, Outline;
    var after := Act(t, a);
    assert after.nodes[after.stack[|after.stack| - 1]].kind == Section;
  }

  lemma LawfulRest(t: Tree, rest: Rest, lastArt: int)
    requires Sound(t) && PlainActions(RestActions(rest)) && Lawful(t.nodes, lastArt, false)
    requires InRange(t) && InArticle(t)
    ensures Lawful(ActAll(t, RestActions(rest)).nodes, lastArt, false)
  {
    var actions := RestActions(rest);
    hide Lawful, Sound, InArticle, Accepts, PlainActions;
    if rest.Numbered? {
      LawfulPair(t, actions, lastArt, false);
    } else if rest.Words? {
      LawfulOne(t, actions, lastArt, false);
    } else {
      assert ActAll(t, []) == t;
    }
  }

  lemma ArticleOpens(t: Tree, num: string, rest: Rest, lastArt: int)
    requires Sound(t) && Accepts(lastArt, num)
    ensures
      var actions := ArticleActions(num, rest);
      && |actions| > 0 && actions[0].Open? && actions[0].kind == Section && actions[1..] == RestActions(rest)
      && InRange(t) && Permits(t, lastArt, false, actions[0])
      && NextArt(lastArt, actions[0]) == LeadingInt(num) && !NextAnnex(false, actions[0])
  {
    OutlineInRange(t);
    hide Sound, Outline, UniquePaths, InRange, InArticle, Accepts, LeadingInt, RestActions;
    assert ("Article " + num)[8..] == num;
  }

  lemma LawfulArticle(t: Tree, num: string, rest: Rest, lastArt: int)
    requires Sound(t) && PlainActions(ArticleActions(num, rest)) && Lawful(t.nodes, lastArt, false)
    requires Accepts(lastArt, num)
    ensures Lawful(ActAll(t, ArticleActions(num, rest)).nodes, LeadingInt(num), false)
  {
    hide *;
    var actions := ArticleActions(num, rest);
    ArticleOpens(t, num, rest, lastArt);
    FirstThenRest(t, actions);
    ActKeepsLawful(t, actions[0], lastArt, false);
    OpenedSectionIsInside(t, actions[0]);
    LawfulRest(Act(t, actions[0]), rest, LeadingInt(num));
  }

  /** Every line but an accepted article makes the parser open at most one node, and only where it may. */
  lemma LineIsPermitted(s: State, line: Line)
    requires InRange(s.t) && !(line.ArticleLine? && !s.f.inAnnex && Accepts(s.f.lastArt, line.num))
    ensures
      var (f, actions) := Reaction(s.f, InArticle(s.t), line);
      && 1 <= |actions| <= 2
      && Permits(s.t, s.f.lastArt, s.f.inAnnex, actions[0])
      && (|actions| == 2 ==> !actions[1].Open?)
      && f.lastArt == NextArt(s.f.lastArt, actions[0])
      && f.inAnnex == NextAnnex(s.f.inAnnex, actions[0])
  {
    hide InArticle, Accepts, IsSubItem, InRange;
  }

  lemma ConsumedIs(s: State, line: Line)
    requires Ready(s) && WellClassified(line)
    ensures InRange(s.t) && PlainActions(Reaction(s.f, InArticle(s.t), line).1)
    ensures Consumed(s, line)
         == State(ActAll(s.t, Reaction(s.f, InArticle(s.t), line).1), Reaction(s.f, InArticle(s.t), line).0)
  {
    OutlineInRange(s.t);
    ReactionIsPlain(s.f, InArticle(s.t), line);
    hide Reaction, Outline, UniquePaths, ActAll, InArticle;
  }

  lemma LineKeepsLawful(s: State, line: Line)
    requires Ready(s) && WellClassified(line) && Lawful(s.t.nodes, s.f.lastArt, s.f.inAnnex)
    ensures Lawful(Consumed(s, line).t.nodes, Consumed(s, line).f.lastArt, Consumed(s, line).f.inAnnex)
  {
    var accepted := line.ArticleLine? && !s.f.inAnnex && Accepts(s.f.lastArt, line.num);
    assert Sound(s.t);
    assert accepted ==> Reaction(s.f, InArticle(s.t), line) == (Flags(LeadingInt(line.num), "", false), ArticleActions(line.num, line.rest)) by {
      OutlineInRange(s.t);
      hide Accepts, InArticle, ArticleActions, LeadingInt;
    }
    hide *;
    ConsumedIs(s, line);
    var actions := Reaction(s.f, InArticle(s.t), line).1;
    if accepted {
      LawfulArticle(s.t, line.num, line.rest, s.f.lastArt);
    } else {
      LineIsPermitted(s, line);
      if |actions| == 1 {
        LawfulOne(s.t, actions, s.f.lastArt, s.f.inAnnex);
      } else {
        LawfulPair(s.t, actions, s.f.lastArt, s.f.inAnnex);
      }
    }
  }

  lemma {:induction false} AlwaysLawful(lines: seq<Line>)
    requires AllWell(lines)
    ensures Lawful(Parsed(lines).t.nodes, Parsed(lines).f.lastArt, Parsed(lines).f.inAnnex)
  {
    if lines == [] {
      var nodes := EMPTY_TREE.nodes;
      assert nodes[..0] == [] && Numbers([]) == [] && Numbers(nodes) == [];
    } else {
      AlwaysLawful(lines[..|lines| - 1]);
      hide Lawful, Consumed, WellClassified;
      LineKeepsLawful(Parsed(lines[..|lines| - 1]), lines[|lines| - 1]);
    }
  }

  // ---- what the invariants mean --------------------------------------------------------

  /**
    Article numbers start at one and go up by at most one; they repeat only with
    something after the digits. So no number up to the last is missing.
   */
  lemma {:induction false} NumbersRun(numbers: seq<string>)
    requires Steps(numbers) && numbers != []
    ensures LeadingInt(numbers[0]) == 1
    ensures forall i :: 0 < i < |numbers| ==>
      || LeadingInt(numbers[i]) == LeadingInt(numbers[i - 1]) + 1
      || (0 < LeadingInt(numbers[i]) == LeadingInt(numbers[i - 1]) && |numbers[i]| > |Itoa(LeadingInt(numbers[i]))|)
    ensures forall k :: 1 <= k <= LastNumber(numbers) ==> Reached(numbers, k)
  {
    hide LeadingInt;
    assert StepAt(numbers, 0);
    if |numbers| > 1 {
      var m := |numbers| - 1;
      var before := numbers[..m];
      forall i | 0 <= i < m
        ensures StepAt(before, i)
      {
        assert StepAt(numbers, i);
      }
      NumbersRun(before);
      assert StepAt(numbers, m);
      forall k: int | 1 <= k <= LastNumber(numbers)
        ensures Reached(numbers, k)
      {
        if k <= LastNumber(before) {
          assert Reached(before, k);
          var i :| 0 <= i < |before| && LeadingInt(before[i]) == k;
          assert LeadingInt(numbers[i]) == k;
        } else {
          assert LeadingInt(numbers[m]) == k;
        }
      }
    } else {
      assert Reached(numbers, 1) && LastNumber(numbers) == 1;
    }
  }

  predicate Reached(numbers: seq<string>, k: int) {
    exists i :: 0 <= i < |numbers| && LeadingInt(numbers[i]) == k
  }

  // ---- when a number repeats -----------------------------------------------------------

  predicate AllDigits(s: string) { forall i :: 0 <= i < |s| ==> '0' <= s[i] <= '9' }

  lemma {:induction false} DigitsLead(s: string)
    ensures AllDigits(LeadingDigits(s)) && LeadingDigits(s) <= s
    ensures |LeadingDigits(s)| < |s| ==> !('0' <= s[|LeadingDigits(s)|] <= '9')
  {
    if s != "" && '0' <= s[0] <= '9' {
      DigitsLead(s[1..]);
    }
  }

  function Ten(n: nat): nat { if n == 0 then 1 else 10 * Ten(n - 1) }

  lemma {:induction false} TenGrows(m: nat, n: nat)
    requires m <= n
    ensures 1 <= Ten(m) <= Ten(n)
  {
    if m < n { TenGrows(m, n - 1); } else if m > 0 { TenGrows(m - 1, m - 1); }
  }

  /** A run of digits denotes a number below ten to its length, and of that length unless it starts with zero. */
  lemma {:induction false} ValueSize(d: string)
    requires AllDigits(d) && d != ""
    ensures 0 <= Value(d) < Ten(|d|)
    ensures d[0] != '0' <==> Ten(|d| - 1) <= Value(d)
  {
    var before, last := d[..|d| - 1], d[|d| - 1];
    assert '0' <= last <= '9';
    if before == "" {
      assert Value(before) == 0 && Ten(0) == 1 && Ten(1) == 10;
    } else {
      ValueSize(before);
    }
  }

  /** A number of up to eighteen digits is read exactly, and none is read as more than the widest integer. */
  lemma NumberIsRead(s: string)
    ensures 0 <= LeadingInt(s) <= MAX_INT
    ensures |LeadingDigits(s)| <= 18 ==> LeadingInt(s) == Value(LeadingDigits(s))
  {
    var d := LeadingDigits(s);
    DigitsLead(s);
    if d != "" { ValueSize(d); }
    if |d| <= 18 {
      TenGrows(|d|, 18);
      assert Ten(6) == 1_000_000;
      assert Ten(12) == 1_000_000 * Ten(6);
      assert Ten(18) == 1_000_000 * Ten(12);
    }
  }

  lemma {:induction false} ItoaSize(n: nat)
    ensures n < Ten(|Itoa(n)|) && (n > 0 ==> Ten(|Itoa(n)| - 1) <= n)
  {
    if n < 10 {
      assert Ten(0) == 1 && Ten(1) == 10;
    } else {
      ItoaSize(n / 10);
      assert |Itoa(n)| == |Itoa(n / 10)| + 1;
    }
  }

  /** A number is written longer than its canonical digits exactly when it starts with zero. */
  lemma CanonicalLength(d: string)
    requires AllDigits(d) && 0 < Value(d)
    ensures |Itoa(Value(d))| <= |d|
    ensures |Itoa(Value(d))| < |d| <==> d[0] == '0'
  {
    assert Value("") == 0;
    ValueSize(d);
    ItoaSize(Value(d));
    var k := |Itoa(Value(d))|;
    if k > |d| { TenGrows(|d|, k - 1); }
    if k < |d| { TenGrows(k, |d| - 1); }
  }

  /** Something other than a digit follows the digits. */
  predicate Lettered(num: string) { |LeadingDigits(num)| < |num| }

  /**
    Presented again, a number is accepted exactly when it has a suffix or a leading
    zero. So "accepted again exactly when lettered" holds of the numbers that have a
    suffix or no leading zero, and of no others.
   */
  lemma RepeatsIff(num: string)
    requires 0 < Value(LeadingDigits(num)) <= MAX_INT
    ensures Accepts(LeadingInt(num), num) <==> Lettered(num) || num[0] == '0'
    ensures (Accepts(LeadingInt(num), num) <==> Lettered(num)) <==> Lettered(num) || num[0] != '0'
  {
    var d := LeadingDigits(num);
    DigitsLead(num);
    CanonicalLength(d);
    assert d != "" && d[0] == num[0];
  }

  predicate Repeats(numbers: seq<string>, i: nat)
    requires i < |numbers|
  {
    i > 0 && LeadingInt(numbers[i]) == LeadingInt(numbers[i - 1])
  }

  /** Nothing but digits, the first a zero. */
  predicate BareZero(num: string) { !Lettered(num) && num != "" && num[0] == '0' }

  lemma {:induction false} StepsAreSmall(numbers: seq<string>, i: nat)
    requires Steps(numbers) && i < |numbers|
    ensures 1 <= LeadingInt(numbers[i]) <= i + 1
  {
    hide LeadingInt;
    assert StepAt(numbers, i);
    if i > 0 { StepsAreSmall(numbers, i - 1); }
  }

  /** In an act of any feasible length a repeat is lettered unless it is a bare number with a leading zero. */
  lemma RepeatsAreLettered(numbers: seq<string>, i: nat)
    requires Steps(numbers) && |numbers| < MAX_INT && i < |numbers| && Repeats(numbers, i)
    ensures Lettered(numbers[i]) <==> !BareZero(numbers[i])
  {
    StepsAreSmall(numbers, i);
    assert StepAt(numbers, i);
    RepeatsIff(numbers[i]);
  }

  /** So all repeats of an act are lettered exactly when none of them is such a number. */
  lemma AllRepeatsLetteredIff(numbers: seq<string>)
    requires Steps(numbers) && |numbers| < MAX_INT
    ensures (forall i :: 0 <= i < |numbers| && Repeats(numbers, i) ==> Lettered(numbers[i]))
      <==> forall i :: 0 <= i < |numbers| && Repeats(numbers, i) ==> !BareZero(numbers[i])
  {
    forall i | 0 <= i < |numbers| && Repeats(numbers, i)
      ensures Lettered(numbers[i]) <==> !BareZero(numbers[i])
    {
      RepeatsAreLettered(numbers, i);
    }
  }

  // And every such number can repeat: after the articles that lead up to it.

  lemma {:induction false} DigitsOfItoa(n: nat)
    ensures AllDigits(Itoa(n)) && Value(Itoa(n)) == n
  {
    if n >= 10 {
      DigitsOfItoa(n / 10);
      assert Itoa(n)[..|Itoa(n)| - 1] == Itoa(n / 10);
    } else {
      assert Itoa(n)[..0] == "" && Value("") == 0;
    }
  }

  lemma {:induction false} DigitsOnly(s: string)
    requires AllDigits(s)
    ensures LeadingDigits(s) == s
  {
    if s != "" { DigitsOnly(s[1..]); }
  }

  function CountUp(n: nat): (numbers: seq<string>)
    ensures |numbers| == n
  {
    if n == 0 then [] else CountUp(n - 1) + [Itoa(n)]
  }

  lemma {:induction false} CountingIsAccepted(n: nat)
    requires n <= MAX_INT
    ensures Steps(CountUp(n)) && LastNumber(CountUp(n)) == n
  {
    if n > 0 {
      CountingIsAccepted(n - 1);
      DigitsOfItoa(n);
      DigitsOnly(Itoa(n));
      StepsOneMore(CountUp(n - 1), Itoa(n));
    }
  }

  lemma BareZeroCanRepeat(num: string)
    requires BareZero(num) && 0 < Value(LeadingDigits(num)) <= MAX_INT
    ensures var numbers := CountUp(LeadingInt(num)) + [num];
      Steps(numbers) && Repeats(numbers, |numbers| - 1) && !Lettered(numbers[|numbers| - 1])
  {
    CountingIsAccepted(LeadingInt(num));
    RepeatsIff(num);
    StepsOneMore(CountUp(LeadingInt(num)), num);
  }

  // ---- such an act -----------------------------------------------------------------------

  function BareArticle(num: string): Line { ArticleLine("Article " + num, num, Nothing) }

  lemma BareArticleAdds(s: State, num: string)
    requires Ready(s) && '/' !in num && !s.f.inAnnex && Accepts(s.f.lastArt, num)
    ensures WellClassified(BareArticle(num))
    ensures Numbers(Consumed(s, BareArticle(num)).t.nodes) == Numbers(s.t.nodes) + [num]
    ensures Consumed(s, BareArticle(num)).f == Flags(LeadingInt(num), "", false)
  {
    OutlineInRange(s.t);
    var actions := ArticleActions(num, Nothing);
    ReactionIsPlain(s.f, InArticle(s.t), BareArticle(num));
    OneAction(s.t, actions);
    NumbersAfter(s.t, actions[0]);
    assert ("Article " + num)[8..] == num;
    hide Act, Outline, UniquePaths, InArticle, Accepts, LeadingInt, Numbers;
  }

  lemma OneAndZeroOne()
    ensures Accepts(0, "1") && LeadingInt("1") == 1 && Accepts(1, "01") && LeadingInt("01") == 1
    ensures Repeats(["1", "01"], 1) && !Lettered("01")
  {
    assert LeadingDigits("01") == "01" by {
      assert "01"[1..] == "1" && "1"[1..] == "";
      assert LeadingDigits("1") == "1" + LeadingDigits("");
    }
    assert LeadingDigits("1") == "1" by { assert "1"[1..] == ""; }
    assert "01"[..1] == "0" && "0"[..0] == "" && "1"[..0] == "";
    assert Value("") == 0 && Value("1") == 1 && Value("0") == 0 && Value("01") == 1;
    assert Itoa(1) == "1";
  }

  lemma ParsedTwo(a: Line, b: Line)
    requires WellClassified(a) && WellClassified(b)
    ensures AllWell([a, b]) && AllWell([]) && Parsed([a, b]) == Consumed(Consumed(Parsed([]), a), b)
  {
    hide Consumed, WellClassified;
    assert [a, b][..1] == [a] && [a][..0] == [];
    assert Parsed([a]) == Consumed(Parsed([]), a);
  }

  lemma NothingParsed()
    ensures AllWell([]) && Parsed([]) == State(EMPTY_TREE, Flags(0, "", false)) && Numbers(EMPTY_TREE.nodes) == []
  {
    var nodes := EMPTY_TREE.nodes;
    assert nodes[..0] == [] && Numbers([]) == [];
    EmptyIsSound();
  }

  /** An act whose second article repeats the first without a letter. */
  lemma LeadingZeroRepeats()
    ensures var lines := [BareArticle("1"), BareArticle("01")];
      && AllWell(lines)
      && Numbers(Parsed(lines).t.nodes) == ["1", "01"]
      && Repeats(["1", "01"], 1) && !Lettered("01")
  {
    OneAndZeroOne();
    NothingParsed();
    hide Consumed, Accepts, LeadingInt, Numbers, BareArticle, Parsed, Sound, Lettered;
    BareArticleAdds(Parsed([]), "1");
    BareArticleAdds(Consumed(Parsed([]), BareArticle("1")), "01");
    ParsedTwo(BareArticle("1"), BareArticle("01"));
  }

  lemma OneLetterNumerals(c: char)
    ensures IsRomanLower([c]) <==> c == 'i' || c == 'v' || c == 'x'
  {
    var s := [c];
    assert s[0..] == s && s[1..] == "";
    if c == 'i' || c == 'v' {
      assert s == "i" || s == "v";
      assert RomanAfterTens(s, 0);
    }
    if c == 'x' { assert RomanAfterTens(s, 1); }
    if IsRomanLower(s) {
      var k :| 0 <= k <= 3 && k <= |s| && RomanAfterTens(s, k);
      assert "i"[0] == 'i' && "v"[0] == 'v' && s[0] == c;
      assert k == 0 ==> s == "i" || s == "v";
    }
  }

  const UNITS: seq<string> := ["", "i", "ii", "iii", "iv", "v", "vi", "vii", "viii", "ix"]

  /** The lower-case roman numeral of a number below forty. */
  function Roman(n: nat): string
    requires n < 40
  {
    seq(n / 10, _ => 'x') + UNITS[n % 10]
  }

  lemma UnitsAre(s: string)
    ensures s in {"", "i", "ii", "iii", "iv", "v", "vi", "vii", "viii", "ix"} <==> exists u :: 0 <= u < 10 && s == UNITS[u]
  {
    assert UNITS[0] == "" && UNITS[1] == "i" && UNITS[2] == "ii" && UNITS[3] == "iii" && UNITS[4] == "iv";
    assert UNITS[5] == "v" && UNITS[6] == "vi" && UNITS[7] == "vii" && UNITS[8] == "viii" && UNITS[9] == "ix";
  }

  /** The roman tokens are the numerals from i to xxxix. */
  lemma RomanIff(s: string)
    ensures IsRomanLower(s) <==> exists n :: 1 <= n < 40 && s == Roman(n)
  {
    if IsRomanLower(s) {
      var k: nat :| k <= 3 && k <= |s| && RomanAfterTens(s, k);
      UnitsAre(s[k..]);
      var u :| 0 <= u < 10 && s[k..] == UNITS[u];
      var n := 10 * k + u;
      assert n / 10 == k && n % 10 == u;
      assert s == s[..k] + s[k..] && s[..k] == seq(k, _ => 'x');
      assert s == Roman(n);
      assert k == 0 && u == 0 ==> s == "";
    }
    if n: nat :| 1 <= n < 40 && s == Roman(n) {
      var k := n / 10;
      UnitsAre(UNITS[n % 10]);
      assert s[k..] == UNITS[n % 10];
      assert RomanAfterTens(s, k);
      assert k == 0 ==> |UNITS[n % 10]| > 0;
    }
  }

  /** A roman numeral is a sub-item unless it is the letter that comes next in the lettered list. */
  lemma SubItemIff(lastItem: string, tok: string)
    ensures IsSubItem(lastItem, tok) <==>
      IsRomanLower(tok) && !(|tok| == 1 && |lastItem| == 1 && tok[0] as int == lastItem[0] as int + 1)
  {
    assert IsRomanLower(tok) ==> tok != "";
    hide IsRomanLower;
    if |tok| == 1 {
      OneLetterNumerals(tok[0]);
      assert tok == [tok[0]];
      assert |lastItem| == 1 ==> lastItem == [lastItem[0]];
      assert tok[0] == 'i' ==> tok == "i";
      assert tok[0] == 'v' ==> tok == "v";
      assert tok[0] == 'x' ==> tok == "x";
    }
  }

  // ---- ordinals ------------------------------------------------------------------------

  predicate OrdinalAt(nodes: seq<Node>, children: seq<nat>, k: nat)
    requires k < |children| && forall j :: 0 <= j < |children| ==> children[j] < |nodes|
  {
    nodes[children[k]].ordinal == CountKind(nodes, children[..k], nodes[children[k]].kind) + 1
  }

  /** Among its siblings of one kind, each node has the next ordinal, from one. */
  ghost predicate OrdinalsCount(t: Tree)
    requires InRange(t)
  {
    forall n, k :: 0 <= n < |t.nodes| && 0 <= k < |t.nodes[n].children| ==> OrdinalAt(t.nodes, t.nodes[n].children, k)
  }

  lemma {:induction false} CountKindKept(before: seq<Node>, after: seq<Node>, children: seq<nat>, kind: Kind)
    requires |before| <= |after| && forall n :: 0 <= n < |before| ==> after[n].kind == before[n].kind
    requires forall j :: 0 <= j < |children| ==> children[j] < |before|
    ensures CountKind(after, children, kind) == CountKind(before, children, kind)
  {
    if children != [] { CountKindKept(before, after, children[..|children| - 1], kind); }
  }

  lemma OrdinalKept(before: seq<Node>, after: seq<Node>, children: seq<nat>, longer: seq<nat>, k: nat)
    requires k < |children| && children <= longer && |before| <= |after|
    requires forall j :: 0 <= j < |children| ==> children[j] < |before|
    requires forall j :: 0 <= j < |longer| ==> longer[j] < |after|
    requires forall n :: 0 <= n < |before| ==> after[n].kind == before[n].kind && after[n].ordinal == before[n].ordinal
    requires OrdinalAt(before, children, k)
    ensures OrdinalAt(after, longer, k)
  {
    CountKindKept(before, after, children[..k], before[children[k]].kind);
    assert longer[..k] == children[..k];
  }

  /** Old nodes keep kind and ordinal, and their children stay in front. */
  lemma ChildrenGrow(t: Tree, a: Action)
    requires Sound(t) && PlainAction(a) && InRange(t)
    ensures
      var after := Act(t, a);
      && InRange(after) && |t.nodes| <= |after.nodes|
      && (forall n :: 0 <= n < |t.nodes| ==>
            && after.nodes[n].kind == t.nodes[n].kind && after.nodes[n].ordinal == t.nodes[n].ordinal
            && after.nodes[n].children
               == t.nodes[n].children + if a.Open? && n == ParentFor(t, a.level) then [|t.nodes|] else [])
      && (forall n :: |t.nodes| <= n < |after.nodes| ==> after.nodes[n].children == [])
  {
    OutlineInRange(Act(t, a));
    hide Outline, UniquePaths, FirstFree, Closed, CountKind;
  }

  lemma ActKeepsOrdinals(t: Tree, a: Action)
    requires Sound(t) && PlainAction(a) && InRange(t) && OrdinalsCount(t)
    ensures InRange(Act(t, a)) && OrdinalsCount(Act(t, a))
  {
    var after := Act(t, a);
    ChildrenGrow(t, a);
    if a.Open? { NewOrdinal(t, a); }
    hide Act, Sound, ParentFor, OrdinalAt;
    forall n, k | 0 <= n < |after.nodes| && 0 <= k < |after.nodes[n].children|
      ensures OrdinalAt(after.nodes, after.nodes[n].children, k)
    {
      if n < |t.nodes| && k < |t.nodes[n].children| {
        assert OrdinalAt(t.nodes, t.nodes[n].children, k);
        OrdinalKept(t.nodes, after.nodes, t.nodes[n].children, after.nodes[n].children, k);
      }
    }
  }

  lemma NewNodeCounts(t: Tree, a: Action)
    requires Sound(t) && PlainAction(a) && InRange(t) && a.Open?
    ensures
      var after, n := Act(t, a), ParentFor(t, a.level);
      && |after.nodes| == |t.nodes| + 1 && after.nodes[|t.nodes|].kind == a.kind
      && after.nodes[|t.nodes|].ordinal == CountKind(t.nodes, t.nodes[n].children, a.kind) + 1
  {
    hide Outline, UniquePaths, FirstFree, Closed, CountKind;
  }

  lemma NewOrdinal(t: Tree, a: Action)
    requires Sound(t) && PlainAction(a) && InRange(t) && a.Open?
    ensures
      var after, n := Act(t, a), ParentFor(t, a.level);
      && n < |after.nodes| && InRange(after)
      && |after.nodes[n].children| == |t.nodes[n].children| + 1
      && OrdinalAt(after.nodes, after.nodes[n].children, |t.nodes[n].children|)
  {
    var after, n := Act(t, a), ParentFor(t, a.level);
    ChildrenGrow(t, a);
    NewNodeCounts(t, a);
    hide Act, ParentFor, Sound, CountKind;
    var before := t.nodes[n].children;
    assert after.nodes[n].children[..|before|] == before;
    CountKindKept(t.nodes, after.nodes, before, a.kind);
  }

  lemma {:induction false} ScriptKeepsOrdinals(t: Tree, actions: seq<Action>)
    requires Sound(t) && PlainActions(actions) && InRange(t) && OrdinalsCount(t)
    ensures InRange(ActAll(t, actions)) && OrdinalsCount(ActAll(t, actions))
  {
    hide Sound, Act, PlainAction, OrdinalsCount, InRange;
    if actions != [] {
      ScriptKeepsOrdinals(t, actions[..|actions| - 1]);
      ActKeepsOrdinals(ActAll(t, actions[..|actions| - 1]), actions[|actions| - 1]);
    } else {
      assert ActAll(t, actions) == t;
    }
  }

  lemma OnStack(t: Tree, n: nat, i: nat)
    requires Outline(t) && n < |t.nodes| && i < |t.stack| && t.stack[i] <= n
    requires forall m :: n < m < |t.nodes| ==> t.nodes[m].level > t.nodes[n].level
    ensures exists k :: 0 <= k < |t.stack| && t.stack[k] == n
    decreases |t.stack| - i
  {
    if t.stack[i] < n {
      assert i + 1 < |t.stack|;
      var next := t.stack[i + 1];
      assert NearestShallower(t.nodes, next) && t.nodes[next].parent == t.stack[i];
      OnStack(t, n, i + 1);
    }
  }

  predicate IsOpenArticle(nodes: seq<Node>, n: int) {
    && 0 <= n < |nodes| && nodes[n].kind == Section
    && forall m :: n < m < |nodes| ==> nodes[m].level > LEVEL_SECTION
  }

  /** The parser is inside an article exactly when the newest chapter, schedule or article is an article. */
  lemma InArticleMeans(t: Tree)
    requires Outline(t) && Grammar(t.nodes)
    ensures InArticle(t) <==> exists n :: IsOpenArticle(t.nodes, n)
  {
    OutlineInRange(t);
    hide Grammar;
    if InArticle(t) {
      var i :| 0 <= i < |t.stack| && t.nodes[t.stack[i]].kind == Section;
      var n := t.stack[i];
      KnownLevel(t.nodes, n);
      KnownLevel(t.nodes, 0);
      forall m | n < m < |t.nodes|
        ensures t.nodes[m].level > LEVEL_SECTION
      {
        LaterAreInside(t, i, m);
      }
      assert IsOpenArticle(t.nodes, n);
    }
    if n :| IsOpenArticle(t.nodes, n) {
      KnownLevel(t.nodes, n);
      OnStack(t, n, 0);
    }
  }

  /**
    A parsed act: an outline whose pre-order is creation order, with unique paths, the
    grammar of acts, running article numbers, and nothing but schedules after an annex.
   */
  lemma ParsedAct(lines: seq<Line>)
    requires AllWell(lines)
    ensures
      var t := Parsed(lines).t;
      && Outline(t) && OrdinalsCount(t) && UniquePaths(t.nodes) && Preorder(t, 0) == Range(0, |t.nodes|)
      && Grammar(t.nodes)
      && AnnexIsLast(t.nodes, Parsed(lines).f.inAnnex)
      && Steps(Numbers(t.nodes))
      && TextOf(t) == Text(KeptText(Script(lines)))
  {
    AlwaysLawful(lines);
    ParsedIsScripted(lines);
    ScriptKeepsOrdinals(EMPTY_TREE, Script(lines));
    PreorderIsCreationOrder(Parsed(lines).t);
    TextIsKept(lines);
  }
}
