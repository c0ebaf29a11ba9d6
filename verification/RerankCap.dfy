/**
  Reranking with a per-document cap: candidates in descending score order,
  ties in input order, at most `docCap` hits per document and `topK` in all.
  The greedy pass is shown to beat every other feasible selection, place by place.
 */
module RerankCap {
  datatype Candidate = Candidate(
    chunkId: int, documentId: int, docNumber: string, citation: string, text: string, relations: seq<string>)

  datatype Hit = Hit(chunkId: int, documentId: int, docNumber: string, citation: string, relations: seq<string>)

  function HitFromCandidate(c: Candidate): Hit {
    Hit(c.chunkId, c.documentId, c.docNumber, c.citation, c.relations)
  }

  predicate Known(cands: seq<Candidate>, positions: seq<nat>) {
    forall k :: 0 <= k < |positions| ==> positions[k] < |cands|
  }

  /** A candidate without a score counts as zero. */
  function Score(scores: seq<real>, i: nat): real { if i < |scores| then scores[i] else 0.0 }

  /** The order of a stable descending sort. */
  predicate Before(scores: seq<real>, i: nat, j: nat) {
    Score(scores, i) > Score(scores, j) || (Score(scores, i) == Score(scores, j) && i < j)
  }

  predicate Ranked(scores: seq<real>, order: seq<nat>) {
    forall a, b :: 0 <= a < b < |order| ==> Before(scores, order[a], order[b])
  }

  predicate Covers(n: nat, order: seq<nat>) {
    && (forall k :: 0 <= k < |order| ==> order[k] < n)
    && (forall i :: 0 <= i < n ==> i in order)
  }

  // ---- the sort ----------------------------------------------------------------------

  function Insert(scores: seq<real>, order: seq<nat>, i: nat): seq<nat> {
    if order == [] then [i]
    else if Before(scores, order[0], i) then [order[0]] + Insert(scores, order[1..], i)
    else [i] + order
  }

  function StableOrder(scores: seq<real>, n: nat): seq<nat> {
    if n == 0 then [] else Insert(scores, StableOrder(scores, n - 1), n - 1)
  }

  lemma {:induction false} InsertHolds(scores: seq<real>, order: seq<nat>, i: nat)
    ensures forall k :: k in Insert(scores, order, i) <==> k == i || k in order
  {
    hide Before;
    if order != [] && Before(scores, order[0], i) {
      InsertHolds(scores, order[1..], i);
      assert order == [order[0]] + order[1..];
    }
  }

  lemma PrependedRanks(scores: seq<real>, first: nat, rest: seq<nat>)
    requires Ranked(scores, rest) && forall k :: k in rest ==> Before(scores, first, k)
    ensures Ranked(scores, [first] + rest)
  {
    hide Before;
  }

  lemma {:induction false} InsertRanks(scores: seq<real>, order: seq<nat>, i: nat)
    requires Ranked(scores, order) && i !in order
    ensures Ranked(scores, Insert(scores, order, i))
    ensures forall k :: k in Insert(scores, order, i) <==> k == i || k in order
  {
    InsertHolds(scores, order, i);
    if order != [] && Before(scores, order[0], i) {
      InsertRanks(scores, order[1..], i);
      PrependedRanks(scores, order[0], Insert(scores, order[1..], i));
    } else {
      PrependedRanks(scores, i, order);
    }
  }

  /** By descending score, a missing one counting zero, and in input order among equal ones. */
  lemma RankedMeans(scores: seq<real>, order: seq<nat>, a: nat, b: nat)
    requires Ranked(scores, order) && a < b < |order|
    ensures
      var left := if order[a] < |scores| then scores[order[a]] else 0.0;
      var right := if order[b] < |scores| then scores[order[b]] else 0.0;
      left >= right && (left == right ==> order[a] < order[b])
  {
    assert Before(scores, order[a], order[b]);
  }

  lemma {:induction false} StableOrderIsSorted(scores: seq<real>, n: nat)
    ensures Ranked(scores, StableOrder(scores, n)) && Covers(n, StableOrder(scores, n))
  {
    if n > 0 {
      StableOrderIsSorted(scores, n - 1);
      var before := StableOrder(scores, n - 1);
      InsertRanks(scores, before, n - 1);
      assert StableOrder(scores, n) == Insert(scores, before, n - 1);
      hide Insert, Before;
      forall i | 0 <= i < n
        ensures i in StableOrder(scores, n)
      {
        if i < n - 1 { assert i in before; }
      }
      forall k | 0 <= k < |StableOrder(scores, n)|
        ensures StableOrder(scores, n)[k] < n
      {
        assert StableOrder(scores, n)[k] in Insert(scores, before, n - 1);
      }
    }
  }

  /** There is only one such order, so any stable sort produces it. */
  lemma {:induction false} RankedIsUnique(scores: seq<real>, p: seq<nat>, q: seq<nat>)
    requires Ranked(scores, p) && Ranked(scores, q) && |p| == |q| && forall k :: k in p <==> k in q
    ensures p == q
  {
    if p != [] {
      assert p[0] in q && q[0] in p;
      var a :| 0 <= a < |q| && q[a] == p[0];
      var b :| 0 <= b < |p| && p[b] == q[0];
      assert p[0] == q[0];
      forall k
        ensures k in p[1..] <==> k in q[1..]
      {
        if k in p[1..] {
          var c :| 1 <= c < |p| && p[c] == k;
          assert Before(scores, p[0], k) && k in q;
        }
        if k in q[1..] {
          var c :| 1 <= c < |q| && q[c] == k;
          assert Before(scores, q[0], k) && k in p;
        }
      }
      RankedIsUnique(scores, p[1..], q[1..]);
    }
  }

  lemma {:induction false} InsertAt(scores: seq<real>, order: seq<nat>, i: nat, j: nat)
    requires j <= |order| && forall a :: 0 <= a < j ==> Before(scores, order[a], i)
    requires j < |order| ==> !Before(scores, order[j], i)
    ensures Insert(scores, order, i) == order[..j] + [i] + order[j..]
  {
    if j > 0 { InsertAt(scores, order[1..], i, j - 1); }
  }

  /** One turn of the sort: index `n` moves left past strictly smaller scores. */
  method MoveLeft(idx: array<nat>, scores: seq<real>, n: nat)
    requires n < idx.Length && idx[n] == n && Ranked(scores, idx[..n])
    requires forall a :: 0 <= a < n ==> idx[a] < n
    modifies idx
    ensures idx[..n + 1] == Insert(scores, old(idx[..n]), n)
    ensures forall i :: n < i < idx.Length ==> idx[i] == old(idx[i])
  {
    ghost var before := idx[..n];
    var j := n;
    while j > 0 && Score(scores, idx[j]) > Score(scores, idx[j - 1])
      invariant 0 <= j <= n && idx[j] == n
      invariant forall a :: 0 <= a < j ==> idx[a] == before[a]
      invariant forall b :: j < b <= n ==> idx[b] == before[b - 1]
      invariant forall i :: n < i < idx.Length ==> idx[i] == old(idx[i])
      invariant j < n ==> Before(scores, n, before[j])
    {
      idx[j], idx[j - 1] := idx[j - 1], idx[j];
      j := j - 1;
    }
    hide Ranked, Before, Insert;
    InsertAt(scores, before, n, j);
    assert idx[..n + 1] == before[..j] + [n] + before[j..];
  }

  /** The library's stable sort on the index slice. */
  method SortStable(idx: array<nat>, scores: seq<real>)
    requires forall i :: 0 <= i < idx.Length ==> idx[i] == i
    modifies idx
    ensures idx[..] == StableOrder(scores, idx.Length)
  {
    var n := 0;
    while n < idx.Length
      invariant 0 <= n <= idx.Length
      invariant idx[..n] == StableOrder(scores, n)
      invariant forall i :: n <= i < idx.Length ==> idx[i] == i
    {
      StableOrderIsSorted(scores, n);
      assert forall a :: 0 <= a < n ==> idx[..n][a] < n;
      MoveLeft(idx, scores, n);
      n := n + 1;
    }
    assert idx[..n] == idx[..];
  }

  // ---- the capped greedy pass ----------------------------------------------------------

  /** The documents of the chosen candidates, counted with repetition. */
  function DocBag(cands: seq<Candidate>, chosen: seq<nat>): (bag: multiset<int>)
    requires Known(cands, chosen)
    ensures |bag| == |chosen|
  {
    if chosen == [] then multiset{}
    else DocBag(cands, chosen[..|chosen| - 1]) + multiset{cands[chosen[|chosen| - 1]].documentId}
  }

  lemma DocBagOneMore(cands: seq<Candidate>, chosen: seq<nat>, i: nat)
    requires Known(cands, chosen) && i < |cands|
    ensures DocBag(cands, chosen + [i]) == DocBag(cands, chosen) + multiset{cands[i].documentId}
  {
    assert (chosen + [i])[..|chosen|] == chosen;
  }

  /** What a selection must respect: at most `topK` in all and, for a positive cap, `docCap` per document. */
  ghost predicate Feasible(cands: seq<Candidate>, chosen: seq<nat>, docCap: int, topK: nat)
    requires Known(cands, chosen)
  {
    && |chosen| <= topK
    && (docCap > 0 ==> forall d :: DocBag(cands, chosen)[d] <= docCap)
  }

  function Greedy(cands: seq<Candidate>, order: seq<nat>, docCap: int, topK: nat): (chosen: seq<nat>)
    requires Known(cands, order)
    ensures Known(cands, chosen)
    ensures forall k :: 0 <= k < |chosen| ==> chosen[k] in order
  {
    if order == [] then [] else
      var before := Greedy(cands, order[..|order| - 1], docCap, topK);
      var i := order[|order| - 1];
      if |before| >= topK || (docCap > 0 && DocBag(cands, before)[cands[i].documentId] >= docCap) then before
      else before + [i]
  }

  function Hits(cands: seq<Candidate>, chosen: seq<nat>): (hits: seq<Hit>)
    requires Known(cands, chosen)
    ensures |hits| == |chosen|
  {
    seq(|chosen|, k requires 0 <= k < |chosen| => HitFromCandidate(cands[chosen[k]]))
  }

  /** The production selection, as candidate positions. */
  function Selection(cands: seq<Candidate>, scores: seq<real>, docCap: int, topK: nat): (chosen: seq<nat>)
    ensures Known(cands, chosen)
  {
    StableOrderIsSorted(scores, |cands|);
    Greedy(cands, StableOrder(scores, |cands|), docCap, topK)
  }

  method RerankAndCap(cands: seq<Candidate>, scores: seq<real>, docCap: int, topK: nat) returns (out: seq<Hit>)
    ensures out == Hits(cands, Selection(cands, scores, docCap, topK))
  {
    var idx := new nat[|cands|](i => i);
    SortStable(idx, scores);
    ghost var order := idx[..];
    StableOrderIsSorted(scores, |cands|);
    hide Covers, Ranked, StableOrder, Greedy, DocBag, Hits, Selection, Counts, Lookup, Known;
    var perDoc: map<int, nat> := map[];
    ghost var chosen: seq<nat> := [];
    EmptyGreedy(cands, docCap, topK);
    NothingCounted();
    assert order[..0] == [];
    out := [];
    var k := 0;
    while k < idx.Length
      invariant 0 <= k <= idx.Length && idx[..] == order && Known(cands, order)
      invariant chosen == Greedy(cands, order[..k], docCap, topK)
      invariant out == Hits(cands, chosen)
      invariant Counts(perDoc, DocBag(cands, chosen))
    {
      if |out| >= topK {
        FullIsFinal(cands, order, docCap, topK, k);
        break;
      }
      var i := idx[k];
      assert i == order[k];
      Considered(cands, order, docCap, topK, k, perDoc);
      var c := cands[i];
      k := k + 1;
      if docCap > 0 && Lookup(perDoc, c.documentId) >= docCap { continue; }
      perDoc := perDoc[c.documentId := Lookup(perDoc, c.documentId) + 1];
      out := out + [HitFromCandidate(c)];
      chosen := chosen + [i];
    }
    assert order[..|order|] == order;
    SelectionIsGreedy(cands, scores, docCap, topK);
  }

  ghost predicate Counts(perDoc: map<int, nat>, bag: multiset<int>) {
    forall d :: bag[d] == Lookup(perDoc, d)
  }

  function Lookup(perDoc: map<int, nat>, doc: int): nat { if doc in perDoc then perDoc[doc] else 0 }

  lemma NothingCounted()
    ensures Counts(map[], multiset{})
  {
  }

  /** What the next candidate does to the choice, to the hits and to the count of its document. */
  lemma Considered(
    cands: seq<Candidate>, order: seq<nat>, docCap: int, topK: nat, k: nat, perDoc: map<int, nat>)
    requires k < |order| && Known(cands, order)
    requires |Greedy(cands, order[..k], docCap, topK)| < topK
    requires Counts(perDoc, DocBag(cands, Greedy(cands, order[..k], docCap, topK)))
    ensures order[k] < |cands|
    ensures
      var chosen, i := Greedy(cands, order[..k], docCap, topK), order[k];
      var doc := cands[i].documentId;
      if docCap > 0 && Lookup(perDoc, doc) >= docCap
      then Greedy(cands, order[..k + 1], docCap, topK) == chosen
      else
        && Greedy(cands, order[..k + 1], docCap, topK) == chosen + [i]
        && Hits(cands, chosen + [i]) == Hits(cands, chosen) + [HitFromCandidate(cands[i])]
        && Counts(perDoc[doc := Lookup(perDoc, doc) + 1], DocBag(cands, chosen + [i]))
  {
    hide Greedy, DocBag, Hits;
    var chosen, i := Greedy(cands, order[..k], docCap, topK), order[k];
    GreedyStep(cands, order, docCap, topK, k);
    DocBagOneMore(cands, chosen, i);
    HitsOneMore(cands, chosen, i);
  }

  lemma EmptyGreedy(cands: seq<Candidate>, docCap: int, topK: nat)
    ensures Greedy(cands, [], docCap, topK) == [] && DocBag(cands, []) == multiset{} && Hits(cands, []) == []
  {
  }

  lemma HitsOneMore(cands: seq<Candidate>, chosen: seq<nat>, i: nat)
    requires Known(cands, chosen) && i < |cands|
    ensures Hits(cands, chosen + [i]) == Hits(cands, chosen) + [HitFromCandidate(cands[i])]
  {
  }

  lemma SelectionIsGreedy(cands: seq<Candidate>, scores: seq<real>, docCap: int, topK: nat)
    ensures
      && Known(cands, StableOrder(scores, |cands|))
      && Selection(cands, scores, docCap, topK) == Greedy(cands, StableOrder(scores, |cands|), docCap, topK)
  {
    StableOrderIsSorted(scores, |cands|);
  }

  lemma GreedyStep(cands: seq<Candidate>, order: seq<nat>, docCap: int, topK: nat, k: nat)
    requires k < |order| && Known(cands, order)
    ensures
      var before := Greedy(cands, order[..k], docCap, topK);
      var full := |before| >= topK
        || (docCap > 0 && DocBag(cands, before)[cands[order[k]].documentId] >= docCap);
      Greedy(cands, order[..k + 1], docCap, topK) == if full then before else before + [order[k]]
  {
    hide DocBag;
    var prefix := order[..k + 1];
    assert prefix[..|prefix| - 1] == order[..k] && prefix[k] == order[k];
  }

  lemma {:induction false} FullIsFinal(
    cands: seq<Candidate>, order: seq<nat>, docCap: int, topK: nat, k: nat)
    requires k <= |order| && Known(cands, order)
    requires |Greedy(cands, order[..k], docCap, topK)| >= topK
    ensures Greedy(cands, order, docCap, topK) == Greedy(cands, order[..k], docCap, topK)
  {
    if k == |order| {
      assert order[..k] == order;
    } else {
      assert order[..|order| - 1][..k] == order[..k];
      FullIsFinal(cands, order[..|order| - 1], docCap, topK, k);
    }
  }

  // ---- the greedy pass is feasible and best --------------------------------------------

  lemma {:induction false} GreedyIsFeasible(
    cands: seq<Candidate>, scores: seq<real>, order: seq<nat>, docCap: int, topK: nat)
    requires Ranked(scores, order) && Known(cands, order)
    ensures Feasible(cands, Greedy(cands, order, docCap, topK), docCap, topK)
    ensures Ranked(scores, Greedy(cands, order, docCap, topK))
  {
    if order != [] {
      var prefix := order[..|order| - 1];
      GreedyIsFeasible(cands, scores, prefix, docCap, topK);
      var before := Greedy(cands, prefix, docCap, topK);
      assert (before + [order[|prefix|]])[..|before|] == before;
      forall k | 0 <= k < |before|
        ensures Before(scores, before[k], order[|prefix|])
      {
        assert before[k] in prefix;
      }
    }
  }

  /** The members of a selection, listed in the given order. */
  function Listing(order: seq<nat>, members: set<nat>): (listed: seq<nat>)
    ensures forall i :: i in listed <==> i in order && i in members
    ensures forall k :: 0 <= k < |listed| ==> listed[k] in order
  {
    if order == [] then [] else
      var before := Listing(order[..|order| - 1], members);
      var i := order[|order| - 1];
      assert order == order[..|order| - 1] + [i];
      if i in members then before + [i] else before
  }

  /** Either the greedy pass is full, or it has taken at least as much of every document as any rival. */
  ghost predicate KeepsUp(cands: seq<Candidate>, rival: seq<nat>, greedy: seq<nat>, topK: nat)
    requires Known(cands, rival) && Known(cands, greedy)
  {
    |greedy| == topK || forall d :: DocBag(cands, rival)[d] <= DocBag(cands, greedy)[d]
  }

  predicate Dominated(scores: seq<real>, rival: seq<nat>, greedy: seq<nat>) {
    |rival| <= |greedy| && forall k :: 0 <= k < |rival| ==> Score(scores, rival[k]) <= Score(scores, greedy[k])
  }

  lemma BagsBoundSizes(a: multiset<int>, b: multiset<int>)
    requires forall d :: a[d] <= b[d]
    ensures |a| <= |b|
  {
    forall d
      ensures b[d] == (a + (b - a))[d]
    {
      assert a[d] <= b[d];
    }
    assert b == a + (b - a);
  }

  /** What one more candidate does to the rival's listing and to the greedy choice. */
  lemma {:induction false} OneMore(
    cands: seq<Candidate>, order: seq<nat>, members: set<nat>, docCap: int, topK: nat)
    requires order != [] && Known(cands, order)
    ensures
      var prefix, i := order[..|order| - 1], order[|order| - 1];
      var doc := multiset{cands[i].documentId};
      var rival, greedy := Listing(prefix, members), Greedy(cands, prefix, docCap, topK);
      && Listing(order, members) == (if i in members then rival + [i] else rival)
      && DocBag(cands, Listing(order, members)) == DocBag(cands, rival) + (if i in members then doc else multiset{})
      && (Greedy(cands, order, docCap, topK) == greedy ==>
            |greedy| >= topK || (docCap > 0 && DocBag(cands, greedy)[cands[i].documentId] >= docCap))
      && (Greedy(cands, order, docCap, topK) != greedy ==>
            && Greedy(cands, order, docCap, topK) == greedy + [i]
            && DocBag(cands, greedy + [i]) == DocBag(cands, greedy) + doc)
  {
    var prefix, i := order[..|order| - 1], order[|order| - 1];
    var rival, greedy := Listing(prefix, members), Greedy(cands, prefix, docCap, topK);
    hide DocBag;
    DocBagOneMore(cands, rival, i);
    DocBagOneMore(cands, greedy, i);
  }

  lemma {:induction false} GreedyKeepsUp(
    cands: seq<Candidate>, order: seq<nat>, members: set<nat>, docCap: int, topK: nat)
    requires Known(cands, order)
    requires Feasible(cands, Listing(order, members), docCap, topK)
    ensures |Greedy(cands, order, docCap, topK)| <= topK
    ensures KeepsUp(cands, Listing(order, members), Greedy(cands, order, docCap, topK), topK)
  {
    if order != [] {
      OneMore(cands, order, members, docCap, topK);
      FeasibleBefore(cands, order, members, docCap, topK);
      GreedyKeepsUp(cands, order[..|order| - 1], members, docCap, topK);
      hide Greedy, Listing, DocBag;
    } else {
      assert |Greedy(cands, order, docCap, topK)| == 0;
    }
  }

  lemma FeasibleBefore(cands: seq<Candidate>, order: seq<nat>, members: set<nat>, docCap: int, topK: nat)
    requires order != [] && Known(cands, order) && Feasible(cands, Listing(order, members), docCap, topK)
    ensures Feasible(cands, Listing(order[..|order| - 1], members), docCap, topK)
  {
    OneMore(cands, order, members, docCap, topK);
    hide Listing, DocBag, Greedy;
    var rival, after := Listing(order[..|order| - 1], members), Listing(order, members);
    forall d | docCap > 0
      ensures DocBag(cands, rival)[d] <= docCap
    {
      assert DocBag(cands, rival)[d] <= DocBag(cands, after)[d];
    }
  }

  lemma KeepingUpIsNoSmaller(cands: seq<Candidate>, rival: seq<nat>, greedy: seq<nat>, docCap: int, topK: nat)
    requires Known(cands, rival) && Known(cands, greedy)
    requires Feasible(cands, rival, docCap, topK) && KeepsUp(cands, rival, greedy, topK)
    ensures |rival| <= |greedy|
  {
    hide DocBag;
    if |greedy| != topK { BagsBoundSizes(DocBag(cands, rival), DocBag(cands, greedy)); }
  }

  lemma LongerStillDominates(scores: seq<real>, rival: seq<nat>, greedy: seq<nat>, i: nat)
    requires Dominated(scores, rival, greedy)
    ensures Dominated(scores, rival, greedy + [i])
  {
  }

  lemma LastPlace(scores: seq<real>, order: seq<nat>, rival: seq<nat>, greedy: seq<nat>)
    requires order != [] && Ranked(scores, order) && Dominated(scores, rival, greedy) && |rival| < |greedy|
    requires forall k :: 0 <= k < |greedy| ==> greedy[k] in order
    ensures Dominated(scores, rival + [order[|order| - 1]], greedy)
  {
    var g := greedy[|rival|];
    assert g in order;
  }

  lemma {:induction false} GreedyDominates(
    cands: seq<Candidate>, scores: seq<real>, order: seq<nat>, members: set<nat>, docCap: int, topK: nat)
    requires Ranked(scores, order) && Known(cands, order)
    requires Feasible(cands, Listing(order, members), docCap, topK)
    ensures Dominated(scores, Listing(order, members), Greedy(cands, order, docCap, topK))
  {
    if order != [] {
      var prefix, i := order[..|order| - 1], order[|order| - 1];
      var rival, before := Listing(prefix, members), Greedy(cands, prefix, docCap, topK);
      var greedy := Greedy(cands, order, docCap, topK);
      assert Ranked(scores, prefix) && Known(cands, prefix);
      hide *;
      OneMore(cands, order, members, docCap, topK);
      FeasibleBefore(cands, order, members, docCap, topK);
      GreedyDominates(cands, scores, prefix, members, docCap, topK);
      GreedyKeepsUp(cands, order, members, docCap, topK);
      KeepingUpIsNoSmaller(cands, Listing(order, members), greedy, docCap, topK);
      LongerStillDominates(scores, rival, before, i);
      if i in members { LastPlace(scores, order, rival, greedy); }
    }
  }

  function Total(scores: seq<real>, chosen: seq<nat>): real {
    if chosen == [] then 0.0
    else Total(scores, chosen[..|chosen| - 1]) + Score(scores, chosen[|chosen| - 1])
  }

  lemma {:induction false} DominatedTotals(scores: seq<real>, rival: seq<nat>, greedy: seq<nat>)
    requires Dominated(scores, rival, greedy)
    ensures Total(scores, rival) <= Total(scores, greedy[..|rival|])
  {
    if rival != [] {
      var m := |rival| - 1;
      DominatedTotals(scores, rival[..m], greedy);
      assert greedy[..|rival|][..m] == greedy[..m];
    }
  }

  /** Any other selection, listed in the same stable score order. */
  function Rival(cands: seq<Candidate>, scores: seq<real>, members: set<nat>): (listed: seq<nat>)
    requires forall i :: i in members ==> i < |cands|
    ensures forall i :: i in listed <==> i in members
    ensures Known(cands, listed)
  {
    StableOrderIsSorted(scores, |cands|);
    Listing(StableOrder(scores, |cands|), members)
  }

  /**
    The selection is feasible and in stable score order, no feasible selection is
    larger, none is better at any place, and so none of any size has a larger
    total than the same number of leading hits.
   */
  lemma SelectionIsBest(
    cands: seq<Candidate>, scores: seq<real>, docCap: int, topK: nat, members: set<nat>)
    requires forall i :: i in members ==> i < |cands|
    requires Feasible(cands, Rival(cands, scores, members), docCap, topK)
    ensures
      var best, rival := Selection(cands, scores, docCap, topK), Rival(cands, scores, members);
      && Feasible(cands, best, docCap, topK) && Ranked(scores, best)
      && Dominated(scores, rival, best)
      && Total(scores, rival) <= Total(scores, best[..|rival|])
  {
    var order := StableOrder(scores, |cands|);
    StableOrderIsSorted(scores, |cands|);
    GreedyIsFeasible(cands, scores, order, docCap, topK);
    GreedyDominates(cands, scores, order, members, docCap, topK);
    DominatedTotals(scores, Listing(order, members), Selection(cands, scores, docCap, topK));
  }
}
