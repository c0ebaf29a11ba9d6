/**
  Splitting the cache misses of one embedding page into kernel inputs: contiguous
  parts, each within an item limit and a byte limit, and as few as possible.
 */
module Partition {
  import opened Prelude
  import opened Strings

  /** A chunk to embed. */
  datatype Chunk = Chunk(id: int, text: string)

  datatype Problem = LimitsNotPositive | ExceedsLimit(id: int, bytes: nat)

  function Bytes(part: seq<Chunk>): nat {
    if part == [] then 0 else Bytes(part[..|part| - 1]) + ByteLen(part[|part| - 1].text)
  }

  function Joined(parts: seq<seq<Chunk>>): seq<Chunk> {
    if parts == [] then [] else parts[0] + Joined(parts[1..])
  }

  /** What one kernel accepts. */
  predicate Fits(part: seq<Chunk>, itemLimit: int, byteLimit: int) {
    part != [] && |part| <= itemLimit && Bytes(part) <= byteLimit
  }

  /** A part that also has room left until its last chunk arrives. */
  predicate FillsAtEnd(part: seq<Chunk>, itemLimit: int, byteLimit: int) {
    Fits(part, itemLimit, byteLimit) && Bytes(part[..|part| - 1]) < byteLimit
  }

  predicate Splits(parts: seq<seq<Chunk>>, chunks: seq<Chunk>, itemLimit: int, byteLimit: int) {
    Joined(parts) == chunks && forall k :: 0 <= k < |parts| ==> Fits(parts[k], itemLimit, byteLimit)
  }

  predicate SplitsFillingAtEnd(parts: seq<seq<Chunk>>, chunks: seq<Chunk>, itemLimit: int, byteLimit: int) {
    Joined(parts) == chunks && forall k :: 0 <= k < |parts| ==> FillsAtEnd(parts[k], itemLimit, byteLimit)
  }

  predicate NoBlank(chunks: seq<Chunk>) {
    forall i :: 0 <= i < |chunks| ==> chunks[i].text != ""
  }

  /** No part could have taken the first chunk of the part after it. */
  predicate Greedy(parts: seq<seq<Chunk>>, itemLimit: int, byteLimit: int) {
    forall k :: 0 <= k < |parts| - 1 && parts[k + 1] != [] ==>
      !FillsAtEnd(parts[k] + [parts[k + 1][0]], itemLimit, byteLimit)
  }

  predicate FirstOversize(chunks: seq<Chunk>, byteLimit: int, i: int) {
    && 0 <= i < |chunks| && ByteLen(chunks[i].text) > byteLimit
    && forall j :: 0 <= j < i ==> ByteLen(chunks[j].text) <= byteLimit
  }

  // ---- facts about bytes ---------------------------------------------------------------

  lemma {:induction false} BytesOfSum(a: seq<Chunk>, b: seq<Chunk>)
    ensures Bytes(a + b) == Bytes(a) + Bytes(b)
  {
    if b == [] {
      assert a + b == a;
    } else {
      var m := |b| - 1;
      assert (a + b)[..|a + b| - 1] == a + b[..m];
      BytesOfSum(a, b[..m]);
    }
  }

  lemma StretchOneMore(chunks: seq<Chunk>, start: nat, end: nat)
    requires start <= end < |chunks|
    ensures chunks[start..end + 1] == chunks[start..end] + [chunks[end]]
    ensures chunks[start..end + 1][..end - start] == chunks[start..end]
    ensures Bytes(chunks[start..end + 1]) == Bytes(chunks[start..end]) + ByteLen(chunks[end].text)
  {
    assert chunks[start..end + 1][..end - start] == chunks[start..end];
  }

  lemma BytesOfSlice(part: seq<Chunk>, i: nat, j: nat)
    requires i <= j <= |part|
    ensures Bytes(part[i..j]) <= Bytes(part)
  {
    hide Bytes;
    assert part == part[..i] + part[i..j] + part[j..];
    BytesOfSum(part[..i] + part[i..j], part[j..]);
    BytesOfSum(part[..i], part[i..j]);
  }

  /** Any stretch of a part is a part. */
  lemma StretchFits(part: seq<Chunk>, i: nat, j: nat, itemLimit: int, byteLimit: int)
    requires i < j <= |part| && FillsAtEnd(part, itemLimit, byteLimit)
    ensures FillsAtEnd(part[i..j], itemLimit, byteLimit)
  {
    hide Bytes;
    BytesOfSlice(part, i, j);
    BytesOfSlice(part[..|part| - 1], i, j - 1);
    assert part[..|part| - 1][i..j - 1] == part[i..j - 1] == part[i..j][..|part[i..j]| - 1];
  }

  lemma {:induction false} JoinedAppend(parts: seq<seq<Chunk>>, last: seq<Chunk>)
    ensures Joined(parts + [last]) == Joined(parts) + last
  {
    if parts != [] {
      assert (parts + [last])[1..] == parts[1..] + [last];
      JoinedAppend(parts[1..], last);
    } else {
      assert Joined([last]) == last + Joined([]);
    }
  }

  // ---- fewest parts --------------------------------------------------------------------

  /** A greedy split that is `ahead` chunks in front of another split never needs more parts. */
  lemma {:induction false} StaysAhead(
    greedy: seq<seq<Chunk>>, other: seq<seq<Chunk>>, ahead: seq<Chunk>, itemLimit: int, byteLimit: int)
    requires Joined(other) == ahead + Joined(greedy)
    requires Greedy(greedy, itemLimit, byteLimit) && forall k :: 0 <= k < |greedy| ==> greedy[k] != []
    requires forall k :: 0 <= k < |other| ==> FillsAtEnd(other[k], itemLimit, byteLimit)
    ensures |greedy| <= |other|
  {
    if greedy != [] {
      var all := ahead + Joined(greedy);
      assert all[|ahead|] == greedy[0][0] && other != [];
      FirstReach(greedy, other[0], ahead, itemLimit, byteLimit, Joined(other[1..]));
      var reach := ahead + greedy[0];
      assert all == reach + Joined(greedy[1..]);
      var beyond := reach[|other[0]|..];
      assert Joined(other[1..]) == all[|other[0]|..] == beyond + Joined(greedy[1..]);
      assert forall k :: 0 <= k < |greedy| - 1 ==> greedy[1..][k] == greedy[k + 1];
      StaysAhead(greedy[1..], other[1..], beyond, itemLimit, byteLimit);
    }
  }

  /** A first part that overreaches contains a greedy part and the chunk after it. */
  lemma Overreach(
    first: seq<Chunk>, rest: seq<Chunk>, ahead: seq<Chunk>, part: seq<Chunk>, next: seq<Chunk>, later: seq<Chunk>)
    requires first + rest == ahead + (part + (next + later)) && next != []
    requires |first| > |ahead| + |part|
    ensures first[|ahead|..|ahead| + |part| + 1] == part + [next[0]]
  {
    var i, j, all := |ahead|, |ahead| + |part| + 1, ahead + (part + (next + later));
    assert all[i..j] == part + [next[0]];
    assert first[i..j] == (first + rest)[i..j];
  }

  lemma OnePart(parts: seq<seq<Chunk>>)
    requires |parts| == 1
    ensures Joined(parts) == parts[0]
  {
    assert Joined(parts) == parts[0] + Joined(parts[1..]) == parts[0];
  }

  lemma TwoParts(parts: seq<seq<Chunk>>, itemLimit: int, byteLimit: int)
    requires |parts| > 1 && Greedy(parts, itemLimit, byteLimit) && parts[1] != []
    ensures Joined(parts) == parts[0] + (parts[1] + Joined(parts[2..]))
    ensures !FillsAtEnd(parts[0] + [parts[1][0]], itemLimit, byteLimit)
  {
    assert parts[1..][0] == parts[1] && parts[1..][1..] == parts[2..];
    hide FillsAtEnd;
  }

  lemma NoOverreach(
    first: seq<Chunk>, rest: seq<Chunk>, ahead: seq<Chunk>, part: seq<Chunk>, next: seq<Chunk>, later: seq<Chunk>,
    itemLimit: int, byteLimit: int)
    requires first + rest == ahead + (part + (next + later)) && next != []
    requires FillsAtEnd(first, itemLimit, byteLimit) && !FillsAtEnd(part + [next[0]], itemLimit, byteLimit)
    ensures |first| <= |ahead| + |part|
  {
    hide *;
    if |first| > |ahead| + |part| {
      Overreach(first, rest, ahead, part, next, later);
      StretchFits(first, |ahead|, |ahead| + |part| + 1, itemLimit, byteLimit);
    }
  }

  lemma FirstReach(
    greedy: seq<seq<Chunk>>, first: seq<Chunk>, ahead: seq<Chunk>, itemLimit: int, byteLimit: int, rest: seq<Chunk>)
    requires greedy != [] && Greedy(greedy, itemLimit, byteLimit) && forall k :: 0 <= k < |greedy| ==> greedy[k] != []
    requires FillsAtEnd(first, itemLimit, byteLimit) && first + rest == ahead + Joined(greedy)
    ensures |first| <= |ahead| + |greedy[0]|
  {
    hide *;
    if |greedy| == 1 {
      OnePart(greedy);
      assert |first| <= |first + rest|;
    } else {
      TwoParts(greedy, itemLimit, byteLimit);
      NoOverreach(first, rest, ahead, greedy[0], greedy[1], Joined(greedy[2..]), itemLimit, byteLimit);
    }
  }

  lemma FewestFillingAtEnd(
    parts: seq<seq<Chunk>>, other: seq<seq<Chunk>>, chunks: seq<Chunk>, itemLimit: int, byteLimit: int)
    requires Splits(parts, chunks, itemLimit, byteLimit) && Greedy(parts, itemLimit, byteLimit)
    requires SplitsFillingAtEnd(other, chunks, itemLimit, byteLimit)
    ensures |parts| <= |other|
  {
    assert Joined(other) == [] + Joined(parts);
    StaysAhead(parts, other, [], itemLimit, byteLimit);
  }

  /** Without blank texts every accepted part fills at its end, so the greedy split is the smallest of all. */
  lemma FewestWithoutBlanks(
    parts: seq<seq<Chunk>>, other: seq<seq<Chunk>>, chunks: seq<Chunk>, itemLimit: int, byteLimit: int)
    requires Splits(parts, chunks, itemLimit, byteLimit) && Greedy(parts, itemLimit, byteLimit)
    requires NoBlank(chunks) && Splits(other, chunks, itemLimit, byteLimit)
    ensures |parts| <= |other|
  {
    forall k | 0 <= k < |other|
      ensures FillsAtEnd(other[k], itemLimit, byteLimit)
    {
      PartOfJoined(other, k, |other[k]| - 1);
    }
    FewestFillingAtEnd(parts, other, chunks, itemLimit, byteLimit);
  }

  lemma {:induction false} PartOfJoined(parts: seq<seq<Chunk>>, k: nat, i: nat)
    requires k < |parts| && i < |parts[k]|
    ensures parts[k][i] in Joined(parts)
  {
    if k == 0 {
      assert Joined(parts)[i] == parts[0][i];
    } else {
      PartOfJoined(parts[1..], k - 1, i);
    }
  }

  // ---- the splitting loop --------------------------------------------------------------

  lemma GreedyIsFewest(parts: seq<seq<Chunk>>, chunks: seq<Chunk>, itemLimit: int, byteLimit: int)
    requires SplitsFillingAtEnd(parts, chunks, itemLimit, byteLimit) && Greedy(parts, itemLimit, byteLimit)
    ensures forall other :: SplitsFillingAtEnd(other, chunks, itemLimit, byteLimit) ==> |parts| <= |other|
    ensures NoBlank(chunks) ==>
      forall other :: Splits(other, chunks, itemLimit, byteLimit) ==> |parts| <= |other|
  {
    forall other | SplitsFillingAtEnd(other, chunks, itemLimit, byteLimit)
      ensures |parts| <= |other|
    {
      FewestFillingAtEnd(parts, other, chunks, itemLimit, byteLimit);
    }
    forall other | NoBlank(chunks) && Splits(other, chunks, itemLimit, byteLimit)
      ensures |parts| <= |other|
    {
      FewestWithoutBlanks(parts, other, chunks, itemLimit, byteLimit);
    }
  }

  lemma AppendPart(
    parts: seq<seq<Chunk>>, chunks: seq<Chunk>, start: nat, end: nat, itemLimit: int, byteLimit: int)
    requires start < end <= |chunks| && FillsAtEnd(chunks[start..end], itemLimit, byteLimit)
    requires SplitsFillingAtEnd(parts, chunks[..start], itemLimit, byteLimit) && Greedy(parts, itemLimit, byteLimit)
    requires parts != [] ==> !FillsAtEnd(parts[|parts| - 1] + [chunks[start]], itemLimit, byteLimit)
    ensures SplitsFillingAtEnd(parts + [chunks[start..end]], chunks[..end], itemLimit, byteLimit)
    ensures Greedy(parts + [chunks[start..end]], itemLimit, byteLimit)
  {
    hide FillsAtEnd;
    var part := chunks[start..end];
    JoinedAppend(parts, part);
    assert chunks[..end] == chunks[..start] + part && part[0] == chunks[start];
  }

  function Stretch(chunks: seq<Chunk>, start: nat, end: nat): seq<Chunk>
    requires start <= end <= |chunks|
  {
    chunks[start..end]
  }

  lemma PartGrows(chunks: seq<Chunk>, start: nat, end: nat, itemLimit: int, byteLimit: int)
    requires start <= end < |chunks| && end - start < itemLimit
    requires Bytes(Stretch(chunks, start, end)) < byteLimit
    requires Bytes(Stretch(chunks, start, end)) + ByteLen(chunks[end].text) <= byteLimit
    ensures FillsAtEnd(Stretch(chunks, start, end + 1), itemLimit, byteLimit)
    ensures Bytes(Stretch(chunks, start, end + 1)) == Bytes(Stretch(chunks, start, end)) + ByteLen(chunks[end].text)
  {
    hide Bytes;
    StretchOneMore(chunks, start, end);
  }

  lemma PartStops(chunks: seq<Chunk>, start: nat, end: nat, itemLimit: int, byteLimit: int)
    requires start <= end < |chunks|
    requires
      || end - start >= itemLimit
      || Bytes(Stretch(chunks, start, end)) + ByteLen(chunks[end].text) > byteLimit
      || Bytes(Stretch(chunks, start, end)) >= byteLimit
    ensures !FillsAtEnd(Stretch(chunks, start, end) + [chunks[end]], itemLimit, byteLimit)
  {
    hide Bytes;
    StretchOneMore(chunks, start, end);
  }

  lemma EmptyStretch(chunks: seq<Chunk>, start: nat)
    requires start <= |chunks|
    ensures Bytes(Stretch(chunks, start, start)) == 0
  {
  }

  lemma ChunksOfPartFit(chunks: seq<Chunk>, start: nat, end: nat, itemLimit: int, byteLimit: int)
    requires start <= end <= |chunks| && Fits(Stretch(chunks, start, end), itemLimit, byteLimit)
    ensures forall i :: start <= i < end ==> ByteLen(chunks[i].text) <= byteLimit
  {
    var part := Stretch(chunks, start, end);
    forall i | start <= i < end
      ensures ByteLen(chunks[i].text) <= byteLimit
    {
      var k := i - start;
      BytesOfSlice(part, k, k + 1);
      assert part[k..k + 1] == [chunks[i]] && [chunks[i]][..0] == [];
      assert Bytes([chunks[i]]) == ByteLen(chunks[i].text);
    }
  }

  /** The inner loop: the longest part that starts at `start`. */
  method FillPart(chunks: seq<Chunk>, start: nat, itemLimit: int, byteLimit: int) returns (end: nat)
    requires itemLimit > 0 && byteLimit > 0
    requires start < |chunks| && ByteLen(chunks[start].text) <= byteLimit
    ensures start < end <= |chunks| && FillsAtEnd(Stretch(chunks, start, end), itemLimit, byteLimit)
    ensures end < |chunks| ==> !FillsAtEnd(Stretch(chunks, start, end) + [chunks[end]], itemLimit, byteLimit)
  {
    end := start;
    var bytes := 0;
    EmptyStretch(chunks, start);
    hide *;
    while end < |chunks| && end - start < itemLimit
      invariant start <= end <= |chunks| && end - start <= itemLimit
      invariant bytes == Bytes(Stretch(chunks, start, end)) < byteLimit
      invariant end > start ==> FillsAtEnd(Stretch(chunks, start, end), itemLimit, byteLimit)
    {
      var nextBytes := ByteLen(chunks[end].text);
      if end > start && nextBytes > byteLimit - bytes { break; }
      PartGrows(chunks, start, end, itemLimit, byteLimit);
      bytes := bytes + nextBytes;
      end := end + 1;
      if bytes >= byteLimit { break; }
    }
    if end < |chunks| { PartStops(chunks, start, end, itemLimit, byteLimit); }
  }

  /**
    An error names the first chunk that alone exceeds the byte limit; otherwise the
    chunks come back in order, in the fewest parts.
   */
  method PartitionChunks(chunks: seq<Chunk>, itemLimit: int, byteLimit: int)
    returns (r: Result<seq<seq<Chunk>>, Problem>)
    ensures r == Err(LimitsNotPositive) <==> itemLimit <= 0 || byteLimit <= 0
    ensures r.Err? <==>
      itemLimit <= 0 || byteLimit <= 0 || exists i :: 0 <= i < |chunks| && ByteLen(chunks[i].text) > byteLimit
    ensures r.Err? && r.error.ExceedsLimit? ==> 
      exists i :: FirstOversize(chunks, byteLimit, i) && r.error == ExceedsLimit(chunks[i].id, ByteLen(chunks[i].text))
    ensures r.Ok? ==> SplitsFillingAtEnd(r.value, chunks, itemLimit, byteLimit)
    ensures r.Ok? ==> forall other :: SplitsFillingAtEnd(other, chunks, itemLimit, byteLimit) ==> |r.value| <= |other|
    ensures r.Ok? && NoBlank(chunks) ==>
      forall other :: Splits(other, chunks, itemLimit, byteLimit) ==> |r.value| <= |other|
  {
    if itemLimit <= 0 || byteLimit <= 0 { return Err(LimitsNotPositive); }
    if |chunks| == 0 { return Ok([]); }
    hide Bytes, Joined;
    var parts: seq<seq<Chunk>> := [];
    var start := 0;
    while start < |chunks|
      invariant 0 <= start <= |chunks|
      invariant SplitsFillingAtEnd(parts, chunks[..start], itemLimit, byteLimit)
      invariant Greedy(parts, itemLimit, byteLimit)
      invariant parts != [] && start < |chunks| ==>
        !FillsAtEnd(parts[|parts| - 1] + [chunks[start]], itemLimit, byteLimit)
      invariant forall i :: 0 <= i < start ==> ByteLen(chunks[i].text) <= byteLimit
    {
      if ByteLen(chunks[start].text) > byteLimit {
        return Err(ExceedsLimit(chunks[start].id, ByteLen(chunks[start].text)));
      }
      var end := FillPart(chunks, start, itemLimit, byteLimit);
      ChunksOfPartFit(chunks, start, end, itemLimit, byteLimit);
      AppendPart(parts, chunks, start, end, itemLimit, byteLimit);
      parts := parts + [chunks[start..end]];
      start := end;
    }
    assert chunks[..start] == chunks;
    GreedyIsFewest(parts, chunks, itemLimit, byteLimit);
    return Ok(parts);
  }

  /** The early stop at a full part is not optimal when a blank text follows. */
  lemma BlankNeedsAnExtraPart()
    ensures
      var chunks := [Chunk(1, "abcde"), Chunk(2, "")];
      && Splits([chunks], chunks, 10, 5)
      && forall parts :: SplitsFillingAtEnd(parts, chunks, 10, 5) ==> |parts| >= 2
  {
    var a, b := Chunk(1, "abcde"), Chunk(2, "");
    assert [a, b][..1] == [a] && [a][..0] == [];
    AsciiBytes("abcde");
    AsciiBytes("");
    assert Bytes([a]) == Bytes([]) + 5 && Bytes([a, b]) == Bytes([a]);
    forall parts | SplitsFillingAtEnd(parts, [a, b], 10, 5)
      ensures |parts| >= 2
    {
      assert |parts| == 1 ==> Joined(parts) == parts[0] + Joined([]);
    }
  }
}
