/**
  Embedding one page: cache hits are stored at once, misses go out in parts and come
  back vector by vector in any order, each written to the store and then to the cache.
  Hits and misses end with the same vector: the provider's own for that text.
 */
module EmbedCache {
  import opened Prelude
  import opened Partition
  import opened Strings
  import EmbedPages

  const CACHE_LOOKUP_BATCH: nat := 5000

  type Vector = seq<real>

  /** The text hash and the provider, both unseen. */
  datatype World = World(hash: string -> string, provider: string -> Vector)

  /** No two texts share a hash. */
  ghost predicate NoCollisions(w: World) {
    forall a, b :: w.hash(a) == w.hash(b) ==> a == b
  }

  datatype Tables = Tables(cache: map<string, Vector>, vectors: map<int, Vector>, written: nat)

  /** One callback: the vector for a place in a part, and whether each of its two writes fails. */
  datatype Delivery = Delivery(part: nat, index: int, vec: Vector, storeFails: bool, cacheFails: bool)

  datatype Problem = OutOfRange | WrongWidth | StoreFailed | CacheFailed

  // ---- cache hits ----------------------------------------------------------------------

  function Misses(w: World, cache: map<string, Vector>, page: seq<Chunk>): (misses: seq<Chunk>)
    ensures |misses| <= |page|
  {
    if page == [] then [] else
      var before, c := Misses(w, cache, page[..|page| - 1]), page[|page| - 1];
      if w.hash(c.text) in cache then before else before + [c]
  }

  function WithHits(w: World, t: Tables, page: seq<Chunk>): Tables {
    if page == [] then t else
      var before, c := WithHits(w, t, page[..|page| - 1]), page[|page| - 1];
      if w.hash(c.text) in t.cache
      then before.(vectors := before.vectors[c.id := t.cache[w.hash(c.text)]], written := before.written + 1)
      else before
  }

  /** The answer of a cache query for one chunk is the cache's. */
  predicate Found(w: World, cache: map<string, Vector>, c: Chunk, vecByHash: map<string, Vector>) {
    && (w.hash(c.text) in vecByHash <==> w.hash(c.text) in cache)
    && (w.hash(c.text) in cache ==> vecByHash[w.hash(c.text)] == cache[w.hash(c.text)])
  }

  lemma EmptyPage(w: World, t: Tables)
    ensures Misses(w, t.cache, []) == [] && WithHits(w, t, []) == t
  {
  }

  lemma EntryIsHitOrMiss(w: World, t: Tables, page: seq<Chunk>, i: nat)
    requires i < |page|
    ensures
      var c, before := page[i], WithHits(w, t, page[..i]);
      if w.hash(c.text) in t.cache
      then
        && Misses(w, t.cache, page[..i + 1]) == Misses(w, t.cache, page[..i])
        && WithHits(w, t, page[..i + 1])
           == before.(vectors := before.vectors[c.id := t.cache[w.hash(c.text)]], written := before.written + 1)
      else
        && Misses(w, t.cache, page[..i + 1]) == Misses(w, t.cache, page[..i]) + [c]
        && WithHits(w, t, page[..i + 1]) == before
  {
    assert page[..i + 1][..i] == page[..i];
  }

  // ---- deliveries ----------------------------------------------------------------------

  function Outcome(parts: seq<seq<Chunk>>, d: Delivery, dims: nat): Option<Problem>
    requires d.part < |parts|
  {
    if d.index < 0 || d.index >= |parts[d.part]| then Some(OutOfRange)
    else if |d.vec| != dims then Some(WrongWidth)
    else if d.storeFails then Some(StoreFailed)
    else if d.cacheFails then Some(CacheFailed)
    else None
  }

  /** A failed cache write leaves the stored vector behind. */
  function Delivered(w: World, t: Tables, parts: seq<seq<Chunk>>, d: Delivery, dims: nat): Tables
    requires d.part < |parts|
  {
    match Outcome(parts, d, dims)
    case Some(CacheFailed) =>
      t.(vectors := t.vectors[parts[d.part][d.index].id := d.vec])
    case Some(_) => t
    case None =>
      var c := parts[d.part][d.index];
      Tables(t.cache[w.hash(c.text) := d.vec], t.vectors[c.id := d.vec], t.written + 1)
  }

  predicate OfParts(parts: seq<seq<Chunk>>, ds: seq<Delivery>) {
    forall k :: 0 <= k < |ds| ==> ds[k].part < |parts|
  }

  /** Any interleaving of the workers' callbacks. */
  function After(w: World, t: Tables, parts: seq<seq<Chunk>>, ds: seq<Delivery>, dims: nat): Tables
    requires OfParts(parts, ds)
  {
    if ds == [] then t
    else Delivered(w, After(w, t, parts, ds[..|ds| - 1], dims), parts, ds[|ds| - 1], dims)
  }

  // ---- agreement -----------------------------------------------------------------------

  /** Each cache entry is the provider's vector for every text with its hash. */
  ghost predicate Agrees(w: World, cache: map<string, Vector>) {
    forall text :: w.hash(text) in cache ==> cache[w.hash(text)] == w.provider(text)
  }

  /** In range, a delivery carries the provider's vector for the text at its index. */
  predicate Honest(w: World, parts: seq<seq<Chunk>>, d: Delivery) {
    d.part < |parts| && (0 <= d.index < |parts[d.part]| ==> d.vec == w.provider(parts[d.part][d.index].text))
  }

  predicate AllHonest(w: World, parts: seq<seq<Chunk>>, ds: seq<Delivery>) {
    forall k :: 0 <= k < |ds| ==> Honest(w, parts, ds[k])
  }

  predicate Right(w: World, vectors: map<int, Vector>, c: Chunk) {
    c.id in vectors && vectors[c.id] == w.provider(c.text)
  }

  predicate DistinctIds(page: seq<Chunk>) {
    forall i, j :: 0 <= i < j < |page| ==> page[i].id != page[j].id
  }

  predicate From(parts: seq<seq<Chunk>>, page: seq<Chunk>) {
    forall p, i :: 0 <= p < |parts| && 0 <= i < |parts[p]| ==> parts[p][i] in page
  }

  lemma DeliveryAgrees(w: World, t: Tables, parts: seq<seq<Chunk>>, d: Delivery, dims: nat)
    requires NoCollisions(w) && Agrees(w, t.cache) && Honest(w, parts, d)
    ensures Agrees(w, Delivered(w, t, parts, d, dims).cache)
  {
  }

  /** The cache agrees after any deliveries in any order, failed ones included. */
  lemma {:induction false} CacheAlwaysAgrees(w: World, t: Tables, parts: seq<seq<Chunk>>, ds: seq<Delivery>, dims: nat)
    requires NoCollisions(w) && Agrees(w, t.cache) && AllHonest(w, parts, ds)
    ensures Agrees(w, After(w, t, parts, ds, dims).cache)
  {
    if ds != [] {
      CacheAlwaysAgrees(w, t, parts, ds[..|ds| - 1], dims);
      DeliveryAgrees(w, After(w, t, parts, ds[..|ds| - 1], dims), parts, ds[|ds| - 1], dims);
    }
  }

  lemma DeliveryKeepsRight(
    w: World, t: Tables, parts: seq<seq<Chunk>>, d: Delivery, dims: nat, page: seq<Chunk>, c: Chunk)
    requires Honest(w, parts, d) && From(parts, page) && DistinctIds(page) && c in page
    requires Right(w, t.vectors, c)
      || (Outcome(parts, d, dims) == None && parts[d.part][d.index] == c)
    ensures Right(w, Delivered(w, t, parts, d, dims).vectors, c)
  {
    if Outcome(parts, d, dims) in {None, Some(CacheFailed)} {
      var other := parts[d.part][d.index];
      assert other in page && (other.id == c.id ==> other == c);
    }
  }

  predicate ErrorFree(parts: seq<seq<Chunk>>, ds: seq<Delivery>, dims: nat)
    requires OfParts(parts, ds)
  {
    forall k :: 0 <= k < |ds| ==> Outcome(parts, ds[k], dims) == None
  }

  predicate Answered(parts: seq<seq<Chunk>>, ds: seq<Delivery>, c: Chunk)
    requires OfParts(parts, ds)
  {
    exists k :: 0 <= k < |ds| && 0 <= ds[k].index < |parts[ds[k].part]| && parts[ds[k].part][ds[k].index] == c
  }

  lemma {:induction false} AnsweredIsRight(
    w: World, t: Tables, parts: seq<seq<Chunk>>, ds: seq<Delivery>, dims: nat, page: seq<Chunk>, c: Chunk)
    requires AllHonest(w, parts, ds) && ErrorFree(parts, ds, dims)
    requires From(parts, page) && DistinctIds(page) && c in page
    requires Right(w, t.vectors, c) || Answered(parts, ds, c)
    ensures Right(w, After(w, t, parts, ds, dims).vectors, c)
  {
    if ds != [] {
      var d, before := ds[|ds| - 1], ds[..|ds| - 1];
      if !(0 <= d.index < |parts[d.part]| && parts[d.part][d.index] == c) {
        assert Answered(parts, ds, c) ==> Answered(parts, before, c);
        AnsweredIsRight(w, t, parts, before, dims, page, c);
      }
      DeliveryKeepsRight(w, After(w, t, parts, before, dims), parts, d, dims, page, c);
    }
  }

  lemma {:induction false} HitsAreRight(w: World, t: Tables, page: seq<Chunk>)
    requires Agrees(w, t.cache) && DistinctIds(page)
    ensures WithHits(w, t, page).cache == t.cache
    ensures forall c :: c in page && c !in Misses(w, t.cache, page) ==> Right(w, WithHits(w, t, page).vectors, c)
    ensures forall c :: c in Misses(w, t.cache, page) ==> c in page
    ensures WithHits(w, t, page).written + |Misses(w, t.cache, page)| == t.written + |page|
  {
    if page != [] {
      var before, c := page[..|page| - 1], page[|page| - 1];
      HitsAreRight(w, t, before);
      assert page == before + [c];
    }
  }

  lemma {:induction false} JoinedMember(parts: seq<seq<Chunk>>, c: Chunk) returns (p: nat, i: nat)
    requires c in Joined(parts)
    ensures p < |parts| && i < |parts[p]| && parts[p][i] == c
  {
    if c in parts[0] {
      p := 0;
      i :| 0 <= i < |parts[0]| && parts[0][i] == c;
    } else {
      p, i := JoinedMember(parts[1..], c);
      p := p + 1;
    }
  }

  lemma {:induction false} ErrorFreeWrites(w: World, t: Tables, parts: seq<seq<Chunk>>, ds: seq<Delivery>, dims: nat)
    requires OfParts(parts, ds) && ErrorFree(parts, ds, dims)
    ensures After(w, t, parts, ds, dims).written == t.written + |ds|
  {
    if ds != [] { ErrorFreeWrites(w, t, parts, ds[..|ds| - 1], dims); }
  }

  lemma {:induction false} AnsweredIsCached(
    w: World, t: Tables, parts: seq<seq<Chunk>>, ds: seq<Delivery>, dims: nat, c: Chunk)
    requires OfParts(parts, ds) && ErrorFree(parts, ds, dims)
    requires w.hash(c.text) in t.cache || Answered(parts, ds, c)
    ensures w.hash(c.text) in After(w, t, parts, ds, dims).cache
  {
    if ds != [] {
      var d, before := ds[|ds| - 1], ds[..|ds| - 1];
      if !(0 <= d.index < |parts[d.part]| && parts[d.part][d.index] == c) {
        assert Answered(parts, ds, c) ==> Answered(parts, before, c);
        AnsweredIsCached(w, t, parts, before, dims, c);
      }
    }
  }

  lemma {:induction false} HitOrMiss(w: World, cache: map<string, Vector>, page: seq<Chunk>, c: Chunk)
    ensures c in Misses(w, cache, page) <==> c in page && w.hash(c.text) !in cache
  {
    if page != [] {
      HitOrMiss(w, cache, page[..|page| - 1], c);
      assert page == page[..|page| - 1] + [page[|page| - 1]];
    }
  }

  /** Every place of every part is answered. */
  predicate AllAnswered(parts: seq<seq<Chunk>>, ds: seq<Delivery>) {
    && OfParts(parts, ds)
    && forall p, i :: 0 <= p < |parts| && 0 <= i < |parts[p]| ==> Answered(parts, ds, parts[p][i])
  }

  /**
    After an error-free run that answered every place, each chunk of the page is
    stored with the provider's vector, hit or miss, whatever the parts and the order;
    its text is in the cache, which still agrees; and one answer per miss makes the written count the page size.
   */
  lemma PageEndsRight(
    w: World, t: Tables, page: seq<Chunk>, parts: seq<seq<Chunk>>, ds: seq<Delivery>, dims: nat)
    requires NoCollisions(w) && Agrees(w, t.cache) && DistinctIds(page)
    requires Joined(parts) == Misses(w, t.cache, page)
    requires AllHonest(w, parts, ds) && AllAnswered(parts, ds) && ErrorFree(parts, ds, dims)
    ensures
      var end := After(w, WithHits(w, t, page), parts, ds, dims);
      && (forall c :: c in page ==> Right(w, end.vectors, c) && w.hash(c.text) in end.cache)
      && Agrees(w, end.cache)
      && (|ds| == |Joined(parts)| ==> end.written == t.written + |page|)
  {
    HitsAreRight(w, t, page);
    var hits := WithHits(w, t, page);
    CacheAlwaysAgrees(w, hits, parts, ds, dims);
    ErrorFreeWrites(w, hits, parts, ds, dims);
    forall p, i | 0 <= p < |parts| && 0 <= i < |parts[p]|
      ensures parts[p][i] in page
    {
      PartOfJoined(parts, p, i);
    }
    forall c | c in page
      ensures Right(w, After(w, hits, parts, ds, dims).vectors, c)
      ensures w.hash(c.text) in After(w, hits, parts, ds, dims).cache
    {
      HitOrMiss(w, t.cache, page, c);
      if c in Misses(w, t.cache, page) {
        var p, i := JoinedMember(parts, c);
      }
      AnsweredIsCached(w, hits, parts, ds, dims, c);
      AnsweredIsRight(w, hits, parts, ds, dims, page, c);
    }
  }

  // ---- the shard -----------------------------------------------------------------------

  // ---- what is stored is sound -----------------------------------------------------------

  /** Every vector kept has the width of the column. */
  predicate RightWidth(t: Tables, dims: nat) {
    && (forall h :: h in t.cache ==> |t.cache[h]| == dims)
    && (forall id :: id in t.vectors ==> |t.vectors[id]| == dims)
  }

  /** No delivery stores or caches a vector of another width. */
  lemma {:induction false} WidthsAreRight(w: World, t: Tables, parts: seq<seq<Chunk>>, ds: seq<Delivery>, dims: nat)
    requires OfParts(parts, ds) && RightWidth(t, dims)
    ensures RightWidth(After(w, t, parts, ds, dims), dims)
  {
    if ds != [] { WidthsAreRight(w, t, parts, ds[..|ds| - 1], dims); }
  }

  /** A delivery is reported unless all went well; a failed one adds nothing to the cache and is not counted. */
  lemma DeliveryIsWhole(w: World, t: Tables, parts: seq<seq<Chunk>>, d: Delivery, dims: nat)
    requires d.part < |parts|
    ensures
      var after, c := Delivered(w, t, parts, d, dims), Outcome(parts, d, dims);
      && (c.Some? ==> after.cache == t.cache && after.written == t.written)
      && (c.None? <==> 0 <= d.index < |parts[d.part]| && |d.vec| == dims && !d.storeFails && !d.cacheFails)
      && (c.None? ==>
            var chunk := parts[d.part][d.index];
            after == Tables(t.cache[w.hash(chunk.text) := d.vec], t.vectors[chunk.id := d.vec], t.written + 1))
      && (d.storeFails ==> after.vectors == t.vectors)
      && (c == Some(CacheFailed) ==> after.vectors == t.vectors[parts[d.part][d.index].id := d.vec])
  {
  }

  class Shard {
    const w: World
    const dims: nat
    var cache: map<string, Vector>
    var vectors: map<int, Vector>
    var written: nat

    constructor (w: World, dims: nat, cache: map<string, Vector>, vectors: map<int, Vector>)
      ensures this.w == w && this.dims == dims && State() == Tables(cache, vectors, 0)
    {
      this.w, this.dims, this.cache, this.vectors, written := w, dims, cache, vectors, 0;
    }

    function State(): Tables reads this { Tables(cache, vectors, written) }

    /** One cache query, for the hashes of a batch. */
    method LookUp(page: seq<Chunk>, start: nat, end: nat) returns (vecByHash: map<string, Vector>)
      requires start <= end <= |page|
      ensures forall k :: start <= k < end ==> Found(w, cache, page[k], vecByHash)
    {
      var hashes := set k | start <= k < end :: w.hash(page[k].text);
      vecByHash := map h | h in hashes && h in cache :: cache[h];
    }

    /** Stores the vector of a chunk that the query found. */
    method StoreHit(chunk: Chunk, vecByHash: map<string, Vector>) returns (hit: bool)
      requires Found(w, cache, chunk, vecByHash)
      modifies this`vectors, this`written
      ensures hit <==> w.hash(chunk.text) in cache
      ensures
        var t := old(State());
        State() == if !hit then t
                   else t.(vectors := t.vectors[chunk.id := cache[w.hash(chunk.text)]], written := t.written + 1)
    {
      hit := w.hash(chunk.text) in vecByHash;
      if hit {
        vectors := vectors[chunk.id := vecByHash[w.hash(chunk.text)]];
        written := written + 1;
      }
    }

    /** One batch: its hits are stored, its misses follow those of the page so far. */
    method ResolveBatch(page: seq<Chunk>, start: nat, end: nat, before: seq<Chunk>, ghost t: Tables)
      returns (misses: seq<Chunk>)
      requires start <= end <= |page| && t.cache == cache
      requires State() == WithHits(w, t, page[..start]) && before == Misses(w, t.cache, page[..start])
      modifies this`vectors, this`written
      ensures State() == WithHits(w, t, page[..end]) && misses == Misses(w, t.cache, page[..end])
    {
      hide Misses, WithHits, Found;
      var vecByHash := LookUp(page, start, end);
      misses := before;
      for i := start to end
        invariant State() == WithHits(w, t, page[..i]) && misses == Misses(w, t.cache, page[..i])
      {
        EntryIsHitOrMiss(w, t, page, i);
        var hit := StoreHit(page[i], vecByHash);
        if !hit { misses := misses + [page[i]]; }
      }
    }

    /** Look hashes up in batches and store the hits. */
    method Resolve(page: seq<Chunk>) returns (misses: seq<Chunk>)
      modifies this
      ensures State() == WithHits(w, old(State()), page)
      ensures misses == Misses(w, old(cache), page)
    {
      misses := [];
      var start := 0;
      ghost var t := State();
      assert page[..0] == [];
      EmptyPage(w, t);
      hide Misses, WithHits;
      while start < |page|
        invariant 0 <= start <= |page| && cache == t.cache
        invariant State() == WithHits(w, t, page[..start]) && misses == Misses(w, t.cache, page[..start])
      {
        var end := if start + CACHE_LOOKUP_BATCH < |page| then start + CACHE_LOOKUP_BATCH else |page|;
        misses := ResolveBatch(page, start, end, misses, t);
        start := end;
      }
      assert page[..start] == page;
    }

    /** Resolve the hits, and cut the misses into kernel inputs. */
    method Prepare(page: seq<Chunk>) returns (parts: seq<seq<Chunk>>)
      requires forall i :: 0 <= i < |page| ==> 0 < ByteLen(page[i].text) <= EmbedPages.MAX_PARTITION_BYTES
      modifies this
      ensures State() == WithHits(w, old(State()), page)
      ensures SplitsFillingAtEnd(
        parts, Misses(w, old(cache), page), EmbedPages.MAX_PARTITION_SIZE, EmbedPages.MAX_PARTITION_BYTES)
      ensures forall other ::
        Splits(other, Misses(w, old(cache), page), EmbedPages.MAX_PARTITION_SIZE, EmbedPages.MAX_PARTITION_BYTES)
        ==> |parts| <= |other|
    {
      ghost var before := cache;
      var misses := Resolve(page);
      MissesFromPage(w, before, page);
      hide WithHits, Misses, SplitsFillingAtEnd, Splits;
      var r := PartitionChunks(misses, EmbedPages.MAX_PARTITION_SIZE, EmbedPages.MAX_PARTITION_BYTES);
      parts := r.value;
    }

    method Deliver(parts: seq<seq<Chunk>>, d: Delivery) returns (err: Option<Problem>)
      requires d.part < |parts|
      modifies this
      ensures err == Outcome(parts, d, dims)
      ensures State() == Delivered(w, old(State()), parts, d, dims)
    {
      if d.index < 0 || d.index >= |parts[d.part]| { return Some(OutOfRange); }
      var chunk := parts[d.part][d.index];
      if |d.vec| != dims { return Some(WrongWidth); }
      if d.storeFails { return Some(StoreFailed); }
      vectors := vectors[chunk.id := d.vec];
      if d.cacheFails { return Some(CacheFailed); }
      cache := cache[w.hash(chunk.text) := d.vec];
      written := written + 1;
      return None;
    }
  }

  lemma {:induction false} MissesFromPage(w: World, cache: map<string, Vector>, page: seq<Chunk>)
    ensures forall i :: 0 <= i < |Misses(w, cache, page)| ==> Misses(w, cache, page)[i] in page
  {
    if page != [] {
      MissesFromPage(w, cache, page[..|page| - 1]);
      assert page == page[..|page| - 1] + [page[|page| - 1]];
    }
  }
}
