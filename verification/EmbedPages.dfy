/**
  One bounded page of chunks to embed: a keyset query over ids beyond a cursor, cut by
  an item limit and a byte limit. Repeating the page from the returned cursor is shown
  to visit every candidate once.
 */
module EmbedPages {
  import opened Prelude
  import opened Strings
  import opened Partition

  const MAX_PARTITION_SIZE: int := 25000
  const MAX_PARTITION_BYTES: int := 33554432

  /** A row the page query can return. */
  datatype Candidate = Candidate(id: int, prefix: string, content: string)

  datatype Page = Page(entries: seq<Chunk>, rejected: nat, cursor: int, complete: bool)

  datatype LoadError = ChangedAfterPreflight(id: int)

  // ---- the text of a chunk -------------------------------------------------------------

  function TrimLeft(s: string): (r: string)
    ensures ByteLen(r) <= ByteLen(s)
  {
    if s != [] && IsSpace(s[0]) then
      assert s == [s[0]] + s[1..];
      ByteLenOfSum([s[0]], s[1..]);
      TrimLeft(s[1..])
    else s
  }

  function TrimRight(s: string): (r: string)
    ensures ByteLen(r) <= ByteLen(s)
  {
    if s != [] && IsSpace(s[|s| - 1]) then TrimRight(s[..|s| - 1]) else s
  }

  function Trim(s: string): (r: string)
    ensures ByteLen(r) <= ByteLen(s)
  {
    TrimRight(TrimLeft(s))
  }

  function ChunkText(c: Candidate): string { Trim(Trim(c.prefix) + "\n" + Trim(c.content)) }

  /** The size the page query reports; it bounds the text. */
  function Size(c: Candidate): nat { ByteLen(c.prefix) + ByteLen(c.content) + 1 }

  lemma TextWithinSize(c: Candidate)
    ensures ByteLen(ChunkText(c)) <= Size(c)
  {
    var a, b := Trim(c.prefix), Trim(c.content);
    ByteLenOfSum(a + "\n", b);
    ByteLenOfSum(a, "\n");
    AsciiBytes("\n");
  }

  lemma {:induction false} TrimLeftBlank(s: string)
    ensures TrimLeft(s) == "" <==> Blank(s)
    ensures Blank(TrimLeft(s)) <==> Blank(s)
  {
    if s != [] && IsSpace(s[0]) {
      TrimLeftBlank(s[1..]);
      assert s == [s[0]] + s[1..];
    }
  }

  lemma {:induction false} TrimRightBlank(s: string)
    ensures TrimRight(s) == "" <==> Blank(s)
    ensures Blank(TrimRight(s)) <==> Blank(s)
  {
    if s != [] && IsSpace(s[|s| - 1]) {
      TrimRightBlank(s[..|s| - 1]);
      assert s == s[..|s| - 1] + [s[|s| - 1]];
    }
  }

  lemma TrimBlank(s: string)
    ensures Trim(s) == "" <==> Blank(s)
    ensures Blank(Trim(s)) <==> Blank(s)
  {
    TrimLeftBlank(s);
    TrimRightBlank(TrimLeft(s));
  }

  /** A chunk has no text exactly when both of its columns are blank. */
  lemma TextIsBlankIff(c: Candidate)
    ensures ChunkText(c) == "" <==> Blank(c.prefix) && Blank(c.content)
  {
    hide Trim;
    TrimBlank(c.prefix);
    TrimBlank(c.content);
    var a, b := Trim(c.prefix), Trim(c.content);
    TrimBlank(a + "\n" + b);
    assert forall i :: 0 <= i < |a| ==> (a + "\n" + b)[i] == a[i];
    assert forall i :: 0 <= i < |b| ==> (a + "\n" + b)[|a| + 1 + i] == b[i];
  }

  /** The text without the white space around it. */
  predicate IsCore(core: string, s: string) {
    && (exists i, j :: 0 <= i <= j <= |s| && IsMiddle(core, s, i, j))
    && IsTrimmed(core)
  }

  predicate IsMiddle(core: string, s: string, i: int, j: int) {
    0 <= i <= j <= |s| && core == s[i..j] && Blank(s[..i]) && Blank(s[j..])
  }

  lemma {:induction false} TrimLeftIs(s: string) returns (i: nat)
    ensures i <= |s| && TrimLeft(s) == s[i..] && forall m :: 0 <= m < i ==> IsSpace(s[m])
    ensures TrimLeft(s) != "" ==> !IsSpace(TrimLeft(s)[0])
  {
    hide IsSpace;
    i := 0;
    if s != [] && IsSpace(s[0]) {
      i := TrimLeftIs(s[1..]);
      assert forall m :: 1 <= m < i + 1 ==> s[m] == s[1..][m - 1];
      i := i + 1;
    }
  }

  lemma {:induction false} TrimRightIs(s: string) returns (j: nat)
    ensures j <= |s| && TrimRight(s) == s[..j] && forall m :: j <= m < |s| ==> IsSpace(s[m])
    ensures TrimRight(s) != "" ==> !IsSpace(TrimRight(s)[|TrimRight(s)| - 1])
  {
    hide IsSpace;
    j := |s|;
    if s != [] && IsSpace(s[|s| - 1]) {
      j := TrimRightIs(s[..|s| - 1]);
      assert s[..|s| - 1][..j] == s[..j];
    } else {
      assert s[..j] == s;
    }
  }

  lemma TrimIsCore(s: string)
    ensures IsCore(Trim(s), s)
  {
    hide IsSpace, TrimLeft, TrimRight;
    var i := TrimLeftIs(s);
    var left := TrimLeft(s);
    var j := TrimRightIs(left);
    assert left[..j] == s[i..i + j];
    assert forall m :: i + j <= m < |s| ==> s[m] == left[m - i];
    assert IsMiddle(Trim(s), s, i, i + j);
    if Trim(s) != "" { assert Trim(s)[0] == left[0]; }
  }

  lemma AroundIsSpace(core: string, s: string, i: int, j: int)
    requires IsMiddle(core, s, i, j)
    ensures forall m :: 0 <= m < i || j <= m < |s| ==> IsSpace(s[m])
    ensures forall m :: 0 <= m < |core| ==> core[m] == s[i + m]
  {
    assert forall m :: 0 <= m < i ==> s[..i][m] == s[m];
    assert forall m :: j <= m < |s| ==> s[j..][m - j] == s[m];
  }

  /** Only one text is that. */
  lemma CoreIsOne(a: string, b: string, s: string)
    requires IsCore(a, s) && IsCore(b, s)
    ensures a == b
  {
    var i, j :| IsMiddle(a, s, i, j);
    var k, l :| IsMiddle(b, s, k, l);
    AroundIsSpace(a, s, i, j);
    AroundIsSpace(b, s, k, l);
    if a != "" && b != "" {
      CoreStarts(a, b, s, i, j, k, l);
      CoreStarts(b, a, s, k, l, i, j);
    } else {
      BlankHasNoCore(a, b, s, i, j, k, l);
    }
  }

  lemma BlankHasNoCore(a: string, b: string, s: string, i: int, j: int, k: int, l: int)
    requires IsMiddle(a, s, i, j) && IsMiddle(b, s, k, l) && (a == "" || b == "")
    requires IsTrimmed(a) && IsTrimmed(b)
    ensures a == b
  {
    AroundIsSpace(a, s, i, j);
    AroundIsSpace(b, s, k, l);
  }

  /** The first and the last character of one core lie inside the other. */
  lemma CoreStarts(a: string, b: string, s: string, i: int, j: int, k: int, l: int)
    requires IsMiddle(a, s, i, j) && IsMiddle(b, s, k, l) && a != "" && b != "" && IsTrimmed(a)
    ensures i >= k && j <= l
  {
    AroundIsSpace(a, s, i, j);
    AroundIsSpace(b, s, k, l);
    assert a[|a| - 1] == s[j - 1];
  }

  /** Two texts on two lines; one alone if the other is empty. */
  function TwoLines(a: string, b: string): string {
    if a == "" then b else if b == "" then a else a + "\n" + b
  }

  predicate IsTrimmed(s: string) { s != "" ==> !IsSpace(s[0]) && !IsSpace(s[|s| - 1]) }

  lemma TwoLinesAreCore(a: string, b: string)
    requires IsTrimmed(a) && IsTrimmed(b)
    ensures IsCore(TwoLines(a, b), a + "\n" + b)
  {
    var whole := a + "\n" + b;
    var i, j := if a == "" then 1 else 0, if b == "" then |a| else |whole|;
    if a == "" && b == "" {
      assert IsMiddle("", whole, 0, 0);
    } else {
      assert IsMiddle(TwoLines(a, b), whole, i, j);
    }
  }

  /**
    The text of a chunk: its prefix and its content, each without the white space around
    it, on two lines; one alone if the other is blank.
   */
  lemma TextIs(c: Candidate, prefix: string, content: string)
    requires IsCore(prefix, c.prefix) && IsCore(content, c.content)
    ensures ChunkText(c) == TwoLines(prefix, content)
  {
    TrimIsCore(c.prefix);
    CoreIsOne(prefix, Trim(c.prefix), c.prefix);
    TrimIsCore(c.content);
    CoreIsOne(content, Trim(c.content), c.content);
    TrimIsCore(prefix + "\n" + content);
    TwoLinesAreCore(prefix, content);
    hide Trim, IsCore, TwoLines;
    CoreIsOne(Trim(prefix + "\n" + content), TwoLines(prefix, content), prefix + "\n" + content);
  }

  // ---- the page ------------------------------------------------------------------------

  predicate Sorted(corpus: seq<Candidate>) {
    forall i, j :: 0 <= i < j < |corpus| ==> corpus[i].id < corpus[j].id
  }

  /** The candidates the keyset query sees: those with an id beyond the cursor. */
  function Beyond(corpus: seq<Candidate>, after: int): (rest: seq<Candidate>)
    ensures |rest| <= |corpus|
  {
    if corpus == [] then [] else
    if corpus[0].id > after then [corpus[0]] + Beyond(corpus[1..], after) else Beyond(corpus[1..], after)
  }

  lemma {:induction false} BeyondMembers(corpus: seq<Candidate>, after: int, i: nat)
    requires i < |Beyond(corpus, after)|
    ensures Beyond(corpus, after)[i] in corpus
  {
    if corpus[0].id > after {
      if i > 0 { BeyondMembers(corpus[1..], after, i - 1); }
    } else {
      BeyondMembers(corpus[1..], after, i);
    }
  }

  lemma {:induction false} BeyondIsSorted(corpus: seq<Candidate>, after: int)
    requires Sorted(corpus)
    ensures Sorted(Beyond(corpus, after))
  {
    if corpus != [] {
      BeyondIsSorted(corpus[1..], after);
      var rest := Beyond(corpus[1..], after);
      forall j | 0 <= j < |rest|
        ensures corpus[0].id < rest[j].id
      {
        BeyondMembers(corpus[1..], after, j);
      }
    }
  }

  /** Small enough for the shard and for one kernel. */
  predicate Admitted(c: Candidate, byteLimit: int) {
    Size(c) <= MAX_PARTITION_BYTES && Size(c) <= byteLimit
  }

  function AdmittedOf(cs: seq<Candidate>, byteLimit: int): seq<Candidate> {
    if cs == [] then [] else
    if Admitted(cs[0], byteLimit) then [cs[0]] + AdmittedOf(cs[1..], byteLimit) else AdmittedOf(cs[1..], byteLimit)
  }

  function TotalSize(cs: seq<Candidate>): nat {
    if cs == [] then 0 else Size(cs[0]) + TotalSize(cs[1..])
  }

  function Entries(cs: seq<Candidate>): (entries: seq<Chunk>) {
    seq(|cs|, i requires 0 <= i < |cs| => Chunk(cs[i].id, ChunkText(cs[i])))
  }

  /** How many candidates a page handles: it stops at the item limit or before the first that overfills it. */
  function Handled(rest: seq<Candidate>, items: nat, room: int, byteLimit: int): (k: nat)
    ensures k <= |rest| && k <= items
  {
    if rest == [] || items == 0 then 0
    else if !Admitted(rest[0], byteLimit) then 1 + Handled(rest[1..], items - 1, room, byteLimit)
    else if Size(rest[0]) > room then 0
    else 1 + Handled(rest[1..], items - 1, room - Size(rest[0]), byteLimit)
  }

  function CursorAfter(rest: seq<Candidate>, k: nat, after: int): int
    requires k <= |rest|
  {
    if k == 0 then after else rest[k - 1].id
  }

  predicate HasBlank(cs: seq<Candidate>) {
    exists i :: 0 <= i < |cs| && ChunkText(cs[i]) == ""
  }

  function PageOf(corpus: seq<Candidate>, after: int, itemLimit: nat, byteLimit: int): Page {
    var rest := Beyond(corpus, after);
    var k := Handled(rest, itemLimit, byteLimit, byteLimit);
    var taken := AdmittedOf(rest[..k], byteLimit);
    AdmittedShrinks(rest[..k], byteLimit);
    Page(Entries(taken), k - |taken|, CursorAfter(rest, k, after), k == |rest|)
  }

  /** Loading fails exactly when a chunk of the page has blank text. */
  predicate PageFails(corpus: seq<Candidate>, after: int, itemLimit: nat, byteLimit: int) {
    var rest := Beyond(corpus, after);
    HasBlank(AdmittedOf(rest[..Handled(rest, itemLimit, byteLimit, byteLimit)], byteLimit))
  }

  lemma {:induction false} AdmittedShrinks(cs: seq<Candidate>, byteLimit: int)
    ensures |AdmittedOf(cs, byteLimit)| <= |cs|
    ensures forall i :: 0 <= i < |AdmittedOf(cs, byteLimit)| ==> Admitted(AdmittedOf(cs, byteLimit)[i], byteLimit)
  {
    if cs != [] { AdmittedShrinks(cs[1..], byteLimit); }
  }

  lemma {:induction false} AdmittedOfSum(a: seq<Candidate>, b: seq<Candidate>, byteLimit: int)
    ensures AdmittedOf(a + b, byteLimit) == AdmittedOf(a, byteLimit) + AdmittedOf(b, byteLimit)
  {
    if a == [] {
      assert a + b == b;
    } else {
      assert (a + b)[1..] == a[1..] + b;
      AdmittedOfSum(a[1..], b, byteLimit);
    }
  }

  lemma AdmittedOneMore(cs: seq<Candidate>, k: nat, byteLimit: int)
    requires k < |cs|
    ensures AdmittedOf(cs[..k + 1], byteLimit)
         == AdmittedOf(cs[..k], byteLimit) + if Admitted(cs[k], byteLimit) then [cs[k]] else []
  {
    assert cs[..k + 1] == cs[..k] + [cs[k]];
    AdmittedOfSum(cs[..k], [cs[k]], byteLimit);
    assert AdmittedOf([], byteLimit) == [];
  }

  method LoadPage(corpus: seq<Candidate>, after: int, itemLimit: nat, byteLimit: int)
    returns (r: Result<Page, LoadError>)
    requires itemLimit > 0 && byteLimit > 0
    ensures r.Err? <==> PageFails(corpus, after, itemLimit, byteLimit)
    ensures r.Ok? ==> r.value == PageOf(corpus, after, itemLimit, byteLimit)
    ensures r.Err? ==> exists c :: c in corpus && c.id > after && ChunkText(c) == "" && r.error == ChangedAfterPreflight(c.id)
  {
    var rest := Beyond(corpus, after);
    var meta := if |rest| > itemLimit + 1 then rest[..itemLimit + 1] else rest;
    if |meta| == 0 { return Ok(Page([], 0, after, true)); }
    var complete := |meta| <= itemLimit;
    if |meta| > itemLimit { meta := meta[..itemLimit]; }
    ghost var k := Handled(rest, itemLimit, byteLimit, byteLimit);
    var ids, rejected, cursor, all := ScanSizes(rest, meta, after, itemLimit, byteLimit);
    AdmittedShrinks(rest[..k], byteLimit);
    if !all { complete := false; }
    r := ReadTexts(ids, rejected, cursor, complete);
    forall i | 0 <= i < |ids|
      ensures ids[i] in corpus && ids[i].id > after
    {
      HandledIsFrom(corpus, after, k, byteLimit, ids[i]);
    }
  }

  lemma HandledIsFrom(corpus: seq<Candidate>, after: int, k: nat, byteLimit: int, c: Candidate)
    requires k <= |Beyond(corpus, after)| && c in AdmittedOf(Beyond(corpus, after)[..k], byteLimit)
    ensures c in corpus && c.id > after
  {
    AdmittedIff(Beyond(corpus, after)[..k], byteLimit, c);
    BeyondIff(corpus, after, c);
  }

  /** The loop over the reported sizes; `all` is false when the byte limit stopped it. */
  method ScanSizes(ghost rest: seq<Candidate>, meta: seq<Candidate>, after: int, itemLimit: nat, byteLimit: int)
    returns (ids: seq<Candidate>, rejected: nat, cursor: int, all: bool)
    requires meta == if |rest| <= itemLimit then rest else rest[..itemLimit]
    ensures
      var k := Handled(rest, itemLimit, byteLimit, byteLimit);
      && ids == AdmittedOf(rest[..k], byteLimit) && rejected == k - |ids|
      && cursor == CursorAfter(rest, k, after)
      && (all <==> k == |meta|)
  {
    hide AdmittedOf, Handled;
    EmptyStart(rest, byteLimit);
    assert rest[0..] == rest;
    ids := [];
    rejected, cursor, all := 0, after, true;
    var pageBytes, i := 0, 0;
    while i < |meta|
      invariant 0 <= i <= |meta|
      invariant Handled(rest, itemLimit, byteLimit, byteLimit)
             == i + Handled(rest[i..], itemLimit - i, byteLimit - pageBytes, byteLimit)
      invariant ids == AdmittedOf(rest[..i], byteLimit) && rejected == i - |ids|
      invariant cursor == CursorAfter(rest, i, after)
      invariant all
    {
      var item := meta[i];
      AdmittedOneMore(rest, i, byteLimit);
      HandledStep(rest, i, itemLimit - i, byteLimit - pageBytes, byteLimit);
      if Size(item) <= 0 || Size(item) > MAX_PARTITION_BYTES || Size(item) > byteLimit {
        rejected := rejected + 1;
        cursor := item.id;
        i := i + 1;
        continue;
      }
      if Size(item) > byteLimit - pageBytes {
        all := false;
        break;
      }
      pageBytes := pageBytes + Size(item);
      ids := ids + [item];
      cursor := item.id;
      i := i + 1;
    }
    if all { HandledStops(rest, i, itemLimit - i, byteLimit - pageBytes, byteLimit); }
  }

  lemma HandledStep(rest: seq<Candidate>, i: nat, items: nat, room: int, byteLimit: int)
    requires i < |rest| && items > 0
    ensures
      var k := Handled(rest[i..], items, room, byteLimit);
      if !Admitted(rest[i], byteLimit) then k == 1 + Handled(rest[i + 1..], items - 1, room, byteLimit)
      else if Size(rest[i]) > room then k == 0
      else k == 1 + Handled(rest[i + 1..], items - 1, room - Size(rest[i]), byteLimit)
  {
    assert rest[i..][0] == rest[i] && rest[i..][1..] == rest[i + 1..];
  }

  lemma HandledStops(rest: seq<Candidate>, i: nat, items: nat, room: int, byteLimit: int)
    requires i <= |rest| && (i == |rest| || items == 0)
    ensures Handled(rest[i..], items, room, byteLimit) == 0
  {
  }

  lemma EmptyStart(rest: seq<Candidate>, byteLimit: int)
    ensures AdmittedOf(rest[..0], byteLimit) == []
  {
  }

  /** The second query: the texts of the accepted ids, in id order. */
  method ReadTexts(ids: seq<Candidate>, rejected: nat, cursor: int, complete: bool)
    returns (r: Result<Page, LoadError>)
    requires forall i :: 0 <= i < |ids| ==> Size(ids[i]) <= MAX_PARTITION_BYTES
    ensures r.Err? <==> HasBlank(ids)
    ensures r.Ok? ==> r.value == Page(Entries(ids), rejected, cursor, complete)
    ensures r.Err? ==> exists i :: 0 <= i < |ids| && r.error == ChangedAfterPreflight(ids[i].id) && ChunkText(ids[i]) == ""
  {
    hide ChunkText;
    var page: seq<Chunk> := [];
    for i := 0 to |ids|
      invariant page == Entries(ids[..i])
      invariant forall j :: 0 <= j < i ==> ChunkText(ids[j]) != ""
    {
      var text := ChunkText(ids[i]);
      TextWithinSize(ids[i]);
      if text == "" || ByteLen(text) > MAX_PARTITION_BYTES { return Err(ChangedAfterPreflight(ids[i].id)); }
      page := page + [Chunk(ids[i].id, text)];
    }
    assert ids[..|ids|] == ids;
    return Ok(Page(page, rejected, cursor, complete));
  }

  // ---- what one page promises ----------------------------------------------------------

  lemma PrefixAdmits(rest: seq<Candidate>, n: nat, byteLimit: int)
    requires 0 < n <= |rest|
    ensures TotalSize(AdmittedOf(rest[..n], byteLimit)) == TotalSize(AdmittedOf(rest[1..][..n - 1], byteLimit))
         + if Admitted(rest[0], byteLimit) then Size(rest[0]) else 0
  {
    assert rest[..n][1..] == rest[1..][..n - 1] && rest[..n][0] == rest[0];
    hide Size, Admitted;
  }

  /** The page handles as many candidates as its limits allow: one more would break one of them. */
  lemma {:induction false} HandledIsMost(rest: seq<Candidate>, items: nat, room: int, byteLimit: int)
    requires 0 <= room <= byteLimit
    ensures
      var k := Handled(rest, items, room, byteLimit);
      && TotalSize(AdmittedOf(rest[..k], byteLimit)) <= room
      && (k == |rest| || k == items || TotalSize(AdmittedOf(rest[..k + 1], byteLimit)) > room)
  {
    hide Size, Admitted;
    var k := Handled(rest, items, room, byteLimit);
    if rest != [] && items > 0 {
      var kept := if Admitted(rest[0], byteLimit) then Size(rest[0]) else 0;
      if kept <= room {
        HandledIsMost(rest[1..], items - 1, room - kept, byteLimit);
        PrefixAdmits(rest, k, byteLimit);
        if k < |rest| { PrefixAdmits(rest, k + 1, byteLimit); }
      } else {
        assert rest[..0] == [];
        PrefixAdmits(rest, 1, byteLimit);
        assert rest[1..][..0] == [];
      }
    }
  }

  /** A page respects both limits, and its cursor moves on while candidates remain. */
  lemma PageIsBounded(corpus: seq<Candidate>, after: int, itemLimit: nat, byteLimit: int)
    requires Sorted(corpus) && itemLimit > 0 && byteLimit > 0
    ensures
      var page := PageOf(corpus, after, itemLimit, byteLimit);
      && |page.entries| + page.rejected <= itemLimit
      && (Beyond(corpus, after) != [] ==> page.cursor > after)
      && (page.complete <==> Beyond(corpus, page.cursor) == [])
      && Bytes(page.entries) <= byteLimit
  {
    var rest := Beyond(corpus, after);
    var k := Handled(rest, itemLimit, byteLimit, byteLimit);
    AdmittedShrinks(rest[..k], byteLimit);
    HandledIsMost(rest, itemLimit, byteLimit, byteLimit);
    EntriesWithinSize(AdmittedOf(rest[..k], byteLimit));
    BeyondCursor(corpus, after, k);
    BeyondIsBeyond(corpus, after);
  }

  lemma {:induction false} TotalSizeLast(cs: seq<Candidate>)
    requires cs != []
    ensures TotalSize(cs) == TotalSize(cs[..|cs| - 1]) + Size(cs[|cs| - 1])
  {
    if |cs| > 1 {
      assert cs[1..][..|cs| - 2] == cs[..|cs| - 1][1..];
      TotalSizeLast(cs[1..]);
    } else {
      assert TotalSize(cs[1..]) == 0;
    }
  }

  lemma {:induction false} EntriesWithinSize(cs: seq<Candidate>)
    ensures Bytes(Entries(cs)) <= TotalSize(cs)
  {
    if cs != [] {
      var m := |cs| - 1;
      EntriesWithinSize(cs[..m]);
      TotalSizeLast(cs);
      TextWithinSize(cs[m]);
      assert Entries(cs)[..m] == Entries(cs[..m]);
    }
  }

  lemma {:induction false} BeyondIsBeyond(corpus: seq<Candidate>, after: int)
    ensures forall i :: 0 <= i < |Beyond(corpus, after)| ==> Beyond(corpus, after)[i].id > after
  {
    if corpus != [] { BeyondIsBeyond(corpus[1..], after); }
  }

  lemma {:induction false} BeyondTwice(corpus: seq<Candidate>, after: int, cursor: int)
    requires after <= cursor
    ensures Beyond(corpus, cursor) == Beyond(Beyond(corpus, after), cursor)
  {
    if corpus != [] { BeyondTwice(corpus[1..], after, cursor); }
  }

  lemma {:induction false} BeyondPrefix(rest: seq<Candidate>, k: nat)
    requires Sorted(rest) && 0 < k <= |rest|
    ensures Beyond(rest, rest[k - 1].id) == rest[k..]
  {
    if k == 1 {
      AllBeyond(rest[1..], rest[0].id);
    } else {
      BeyondPrefix(rest[1..], k - 1);
    }
  }

  lemma {:induction false} AllBeyond(rest: seq<Candidate>, after: int)
    requires forall i :: 0 <= i < |rest| ==> rest[i].id > after
    ensures Beyond(rest, after) == rest
  {
    if rest != [] { AllBeyond(rest[1..], after); }
  }

  /** The returned cursor leaves exactly the candidates the page did not handle. */
  lemma BeyondCursor(corpus: seq<Candidate>, after: int, k: nat)
    requires Sorted(corpus) && k <= |Beyond(corpus, after)|
    ensures Beyond(corpus, CursorAfter(Beyond(corpus, after), k, after)) == Beyond(corpus, after)[k..]
  {
    var rest := Beyond(corpus, after);
    if k > 0 {
      BeyondIsSorted(corpus, after);
      BeyondIsBeyond(corpus, after);
      BeyondTwice(corpus, after, rest[k - 1].id);
      BeyondPrefix(rest, k);
    }
  }

  // ---- repeating the page --------------------------------------------------------------

  /** Chunks already embedded are no longer candidates; they lie at or before the cursor. */
  function Without(corpus: seq<Candidate>, done: set<int>): seq<Candidate> {
    if corpus == [] then [] else
    if corpus[0].id in done then Without(corpus[1..], done) else [corpus[0]] + Without(corpus[1..], done)
  }

  lemma {:induction false} EmbeddedStayBehind(corpus: seq<Candidate>, done: set<int>, cursor: int)
    requires forall id :: id in done ==> id <= cursor
    ensures Beyond(Without(corpus, done), cursor) == Beyond(corpus, cursor)
  {
    if corpus != [] { EmbeddedStayBehind(corpus[1..], done, cursor); }
  }

  lemma HandlesOne(corpus: seq<Candidate>, after: int, itemLimit: nat, byteLimit: int)
    requires Sorted(corpus) && itemLimit > 0 && byteLimit > 0
    requires !PageOf(corpus, after, itemLimit, byteLimit).complete
    ensures
      var cursor := PageOf(corpus, after, itemLimit, byteLimit).cursor;
      |Beyond(corpus, cursor)| < |Beyond(corpus, after)|
  {
    var rest := Beyond(corpus, after);
    BeyondCursor(corpus, after, Handled(rest, itemLimit, byteLimit, byteLimit));
  }

  /** Running the shard again and again from its own cursor, until a page is complete or fails. */
  function Walk(corpus: seq<Candidate>, after: int, itemLimit: nat, byteLimit: int): (pages: seq<Result<Page, ()>>)
    requires Sorted(corpus) && itemLimit > 0 && byteLimit > 0
    ensures pages != []
    decreases |Beyond(corpus, after)|
  {
    if PageFails(corpus, after, itemLimit, byteLimit) then [Err(())] else
      var page := PageOf(corpus, after, itemLimit, byteLimit);
      if page.complete then [Ok(page)] else
        HandlesOne(corpus, after, itemLimit, byteLimit);
        [Ok(page)] + Walk(corpus, page.cursor, itemLimit, byteLimit)
  }

  function AllEntries(pages: seq<Result<Page, ()>>): seq<Chunk> {
    if pages == [] then [] else (if pages[0].Ok? then pages[0].value.entries else []) + AllEntries(pages[1..])
  }

  function AllRejected(pages: seq<Result<Page, ()>>): nat {
    if pages == [] then 0 else (if pages[0].Ok? then pages[0].value.rejected else 0) + AllRejected(pages[1..])
  }

  lemma BlankInEither(a: seq<Candidate>, b: seq<Candidate>)
    ensures HasBlank(a + b) <==> HasBlank(a) || HasBlank(b)
  {
    hide ChunkText;
    if i :| 0 <= i < |a| && ChunkText(a[i]) == "" { assert (a + b)[i] == a[i]; }
    if i :| 0 <= i < |b| && ChunkText(b[i]) == "" { assert (a + b)[|a| + i] == b[i]; }
  }

  lemma WalkStarts(corpus: seq<Candidate>, after: int, itemLimit: nat, byteLimit: int)
    requires Sorted(corpus) && itemLimit > 0 && byteLimit > 0
    ensures
      var pages, page := Walk(corpus, after, itemLimit, byteLimit), PageOf(corpus, after, itemLimit, byteLimit);
      if PageFails(corpus, after, itemLimit, byteLimit) then pages == [Err(())]
      else
        && pages[0] == Ok(page)
        && (page.complete ==> |pages| == 1)
        && (!page.complete ==> pages[1..] == Walk(corpus, page.cursor, itemLimit, byteLimit))
        && AllEntries(pages) == page.entries + AllEntries(pages[1..])
        && AllRejected(pages) == page.rejected + AllRejected(pages[1..])
  {
    hide PageFails, PageOf;
  }

  lemma NoneLeft()
    ensures AllEntries([]) == [] && AllRejected([]) == 0
  {
  }

  /** The first page takes `k` candidates; the rest of the walk sees the others. */
  lemma FirstPage(corpus: seq<Candidate>, after: int, itemLimit: nat, byteLimit: int) returns (k: nat)
    requires Sorted(corpus) && itemLimit > 0 && byteLimit > 0
    ensures
      var page, rest := PageOf(corpus, after, itemLimit, byteLimit), Beyond(corpus, after);
      && k <= |rest| && (page.complete <==> k == |rest|)
      && Beyond(corpus, page.cursor) == rest[k..]
      && |AdmittedOf(rest[..k], byteLimit)| <= k
      && page.entries == Entries(AdmittedOf(rest[..k], byteLimit))
      && page.rejected == k - |AdmittedOf(rest[..k], byteLimit)|
      && (PageFails(corpus, after, itemLimit, byteLimit) <==> HasBlank(AdmittedOf(rest[..k], byteLimit)))
      && AdmittedOf(rest, byteLimit) == AdmittedOf(rest[..k], byteLimit) + AdmittedOf(rest[k..], byteLimit)
  {
    var rest := Beyond(corpus, after);
    k := Handled(rest, itemLimit, byteLimit, byteLimit);
    assert rest == rest[..k] + rest[k..];
    AdmittedOfSum(rest[..k], rest[k..], byteLimit);
    AdmittedShrinks(rest[..k], byteLimit);
    BeyondCursor(corpus, after, k);
  }

  /**
    The walk ends, in at most one page per candidate, and it ends well exactly when no
    admitted candidate is blank. Then every candidate beyond the first cursor was
    either an entry, once and in id order, or counted as rejected.
   */
  lemma {:induction false} WalkCoversAll(corpus: seq<Candidate>, after: int, itemLimit: nat, byteLimit: int)
    requires Sorted(corpus) && itemLimit > 0 && byteLimit > 0
    ensures
      var pages, rest := Walk(corpus, after, itemLimit, byteLimit), Beyond(corpus, after);
      && |pages| <= |rest| + 1
      && (pages[|pages| - 1].Ok? <==> !HasBlank(AdmittedOf(rest, byteLimit)))
      && (pages[|pages| - 1].Ok? ==>
            && pages[|pages| - 1].value.complete
            && AllEntries(pages) == Entries(AdmittedOf(rest, byteLimit))
            && AllRejected(pages) == |rest| - |AdmittedOf(rest, byteLimit)|)
    decreases |Beyond(corpus, after)|
  {
    var rest := Beyond(corpus, after);
    var page := PageOf(corpus, after, itemLimit, byteLimit);
    var pages := Walk(corpus, after, itemLimit, byteLimit);
    var k := FirstPage(corpus, after, itemLimit, byteLimit);
    WalkStarts(corpus, after, itemLimit, byteLimit);
    BlankInEither(AdmittedOf(rest[..k], byteLimit), AdmittedOf(rest[k..], byteLimit));
    NoneLeft();
    hide *;
    if !PageFails(corpus, after, itemLimit, byteLimit) {
      if page.complete {
        NothingAdmitted(byteLimit);
      } else {
        WalkCoversAll(corpus, page.cursor, itemLimit, byteLimit);
        EntriesOfSum(AdmittedOf(rest[..k], byteLimit), AdmittedOf(rest[k..], byteLimit));
      }
    }
  }

  /** Small enough for the shard and for one kernel, in bytes of its two columns and a newline. */
  predicate Sized(c: Candidate, byteLimit: int) {
    var size := ByteLen(c.prefix) + ByteLen(c.content) + 1;
    size <= byteLimit && size <= MAX_PARTITION_BYTES
  }

  lemma {:induction false} BeyondIff(corpus: seq<Candidate>, after: int, c: Candidate)
    ensures c in Beyond(corpus, after) <==> c in corpus && c.id > after
  {
    if corpus != [] {
      BeyondIff(corpus[1..], after, c);
      assert corpus == [corpus[0]] + corpus[1..];
    }
  }

  lemma {:induction false} AdmittedIff(cs: seq<Candidate>, byteLimit: int, c: Candidate)
    ensures c in AdmittedOf(cs, byteLimit) <==> c in cs && Sized(c, byteLimit)
  {
    if cs != [] {
      AdmittedIff(cs[1..], byteLimit, c);
      assert cs == [cs[0]] + cs[1..];
      hide Sized, Admitted;
      assert Admitted(cs[0], byteLimit) <==> Sized(cs[0], byteLimit) by { SizedIsAdmitted(cs[0], byteLimit); }
    }
  }

  lemma SizedIsAdmitted(c: Candidate, byteLimit: int)
    ensures Admitted(c, byteLimit) <==> Sized(c, byteLimit)
  {
  }

  lemma {:induction false} AdmittedIsSorted(cs: seq<Candidate>, byteLimit: int)
    requires Sorted(cs)
    ensures Sorted(AdmittedOf(cs, byteLimit))
  {
    hide Admitted;
    if cs != [] {
      AdmittedIsSorted(cs[1..], byteLimit);
      var rest := AdmittedOf(cs[1..], byteLimit);
      forall j | 0 <= j < |rest|
        ensures cs[0].id < rest[j].id
      {
        AdmittedIff(cs[1..], byteLimit, rest[j]);
      }
    }
  }

  /** So a walk that ends well embeds exactly the chunks beyond its start that are small enough, each once. */
  lemma WalkEmbeds(corpus: seq<Candidate>, after: int, itemLimit: nat, byteLimit: int)
    requires Sorted(corpus) && itemLimit > 0 && byteLimit > 0
    requires Walk(corpus, after, itemLimit, byteLimit)[|Walk(corpus, after, itemLimit, byteLimit)| - 1].Ok?
    ensures
      var entries := AllEntries(Walk(corpus, after, itemLimit, byteLimit));
      && (forall c :: c in corpus && c.id > after && Sized(c, byteLimit) ==> Chunk(c.id, ChunkText(c)) in entries)
      && (forall e :: e in entries ==>
            exists c :: c in corpus && c.id > after && Sized(c, byteLimit) && e == Chunk(c.id, ChunkText(c)))
      && (forall i, j :: 0 <= i < j < |entries| ==> entries[i].id < entries[j].id)
      && |entries| + AllRejected(Walk(corpus, after, itemLimit, byteLimit)) == |Beyond(corpus, after)|
  {
    WalkCoversAll(corpus, after, itemLimit, byteLimit);
    var rest := Beyond(corpus, after);
    var taken := AdmittedOf(rest, byteLimit);
    BeyondIsSorted(corpus, after);
    AdmittedIsSorted(rest, byteLimit);
    hide Walk, AllEntries, AllRejected, Beyond, AdmittedOf, Sized, ChunkText, HasBlank;
    forall c
      ensures c in taken <==> c in corpus && c.id > after && Sized(c, byteLimit)
    {
      BeyondIff(corpus, after, c);
      AdmittedIff(rest, byteLimit, c);
    }
    AllOfTaken(corpus, after, byteLimit, taken);
  }

  lemma AllOfTaken(corpus: seq<Candidate>, after: int, byteLimit: int, taken: seq<Candidate>)
    requires Sorted(taken) && forall c :: c in taken <==> c in corpus && c.id > after && Sized(c, byteLimit)
    ensures forall c :: c in corpus && c.id > after && Sized(c, byteLimit) ==> Chunk(c.id, ChunkText(c)) in Entries(taken)
    ensures forall e :: e in Entries(taken) ==>
      exists c :: c in corpus && c.id > after && Sized(c, byteLimit) && e == Chunk(c.id, ChunkText(c))
    ensures forall i, j :: 0 <= i < j < |Entries(taken)| ==> Entries(taken)[i].id < Entries(taken)[j].id
  {
    hide Sized, ChunkText;
    forall c | c in corpus && c.id > after && Sized(c, byteLimit)
      ensures Chunk(c.id, ChunkText(c)) in Entries(taken)
    {
      var i :| 0 <= i < |taken| && taken[i] == c;
      assert Entries(taken)[i] == Chunk(c.id, ChunkText(c));
    }
    forall e | e in Entries(taken)
      ensures exists c :: c in corpus && c.id > after && Sized(c, byteLimit) && e == Chunk(c.id, ChunkText(c))
    {
      var i :| 0 <= i < |Entries(taken)| && Entries(taken)[i] == e;
      assert taken[i] in taken;
    }
  }

  lemma NothingAdmitted(byteLimit: int)
    ensures AdmittedOf([], byteLimit) == [] && !HasBlank([]) && Entries([]) == []
  {
  }

  lemma EntriesOfSum(a: seq<Candidate>, b: seq<Candidate>)
    ensures Entries(a + b) == Entries(a) + Entries(b)
  {
  }

  lemma {:induction false} WithoutMembers(corpus: seq<Candidate>, done: set<int>, i: nat)
    requires i < |Without(corpus, done)|
    ensures Without(corpus, done)[i] in corpus
  {
    if corpus[0].id in done {
      WithoutMembers(corpus[1..], done, i);
    } else if i > 0 {
      WithoutMembers(corpus[1..], done, i - 1);
    }
  }

  lemma {:induction false} WithoutIsSorted(corpus: seq<Candidate>, done: set<int>)
    requires Sorted(corpus)
    ensures Sorted(Without(corpus, done))
  {
    if corpus != [] {
      WithoutIsSorted(corpus[1..], done);
      var rest := Without(corpus[1..], done);
      forall j | 0 <= j < |rest|
        ensures corpus[0].id < rest[j].id
      {
        WithoutMembers(corpus[1..], done, j);
      }
    }
  }

  /** A page looks beyond its cursor only. */
  lemma SamePage(corpus: seq<Candidate>, other: seq<Candidate>, after: int, itemLimit: nat, byteLimit: int)
    requires Beyond(corpus, after) == Beyond(other, after)
    ensures PageOf(corpus, after, itemLimit, byteLimit) == PageOf(other, after, itemLimit, byteLimit)
    ensures PageFails(corpus, after, itemLimit, byteLimit) <==> PageFails(other, after, itemLimit, byteLimit)
  {
  }

  lemma {:induction false} SameWalk(corpus: seq<Candidate>, other: seq<Candidate>, after: int, itemLimit: nat, byteLimit: int)
    requires Sorted(corpus) && Sorted(other) && itemLimit > 0 && byteLimit > 0
    requires Beyond(corpus, after) == Beyond(other, after)
    ensures Walk(corpus, after, itemLimit, byteLimit) == Walk(other, after, itemLimit, byteLimit)
    decreases |Beyond(corpus, after)|
  {
    SamePage(corpus, other, after, itemLimit, byteLimit);
    hide PageOf, PageFails, Beyond;
    var page := PageOf(corpus, after, itemLimit, byteLimit);
    if !PageFails(corpus, after, itemLimit, byteLimit) && !page.complete {
      HandlesOne(corpus, after, itemLimit, byteLimit);
      BothBeyond(corpus, other, after, itemLimit, byteLimit);
      SameWalk(corpus, other, page.cursor, itemLimit, byteLimit);
    }
  }

  lemma BothBeyond(corpus: seq<Candidate>, other: seq<Candidate>, after: int, itemLimit: nat, byteLimit: int)
    requires Sorted(corpus) && Sorted(other) && itemLimit > 0 && byteLimit > 0
    requires Beyond(corpus, after) == Beyond(other, after)
    ensures var cursor := PageOf(corpus, after, itemLimit, byteLimit).cursor; Beyond(corpus, cursor) == Beyond(other, cursor)
  {
    SamePage(corpus, other, after, itemLimit, byteLimit);
    var k := FirstPage(corpus, after, itemLimit, byteLimit);
    var l := FirstPage(other, after, itemLimit, byteLimit);
    hide *;
  }

  /** The chunks of a batch that the walk has passed. */
  function Passed(batch: set<int>, cursor: int): set<int> { set id | id in batch && id <= cursor }

  /** The same walk while chunks it has handled are embedded, and so leave the query, after each page. */
  function ShrinkingWalk(corpus: seq<Candidate>, after: int, embedded: seq<set<int>>, itemLimit: nat, byteLimit: int)
    : (pages: seq<Result<Page, ()>>)
    requires Sorted(corpus) && itemLimit > 0 && byteLimit > 0
    decreases |Beyond(corpus, after)|
  {
    if PageFails(corpus, after, itemLimit, byteLimit) then [Err(())] else
      var page := PageOf(corpus, after, itemLimit, byteLimit);
      if page.complete then [Ok(page)] else
        var done := if embedded == [] then {} else Passed(embedded[0], page.cursor);
        HandlesOne(corpus, after, itemLimit, byteLimit);
        WithoutIsSorted(corpus, done);
        EmbeddedStayBehind(corpus, done, page.cursor);
        [Ok(page)] + ShrinkingWalk(Without(corpus, done), page.cursor,
                                   if embedded == [] then [] else embedded[1..], itemLimit, byteLimit)
  }

  /** Embedding what the walk has passed changes no page, so the walk covers the corpus it began with. */
  lemma {:induction false} ShrinkingWalkIsWalk(
    corpus: seq<Candidate>, after: int, embedded: seq<set<int>>, itemLimit: nat, byteLimit: int)
    requires Sorted(corpus) && itemLimit > 0 && byteLimit > 0
    ensures ShrinkingWalk(corpus, after, embedded, itemLimit, byteLimit) == Walk(corpus, after, itemLimit, byteLimit)
    decreases |Beyond(corpus, after)|
  {
    hide PageOf, PageFails, Beyond, Without, Sorted, Passed;
    var page := PageOf(corpus, after, itemLimit, byteLimit);
    if !PageFails(corpus, after, itemLimit, byteLimit) && !page.complete {
      var done := if embedded == [] then {} else Passed(embedded[0], page.cursor);
      PassedIsBehind(embedded, page.cursor);
      HandlesOne(corpus, after, itemLimit, byteLimit);
      WithoutIsSorted(corpus, done);
      EmbeddedStayBehind(corpus, done, page.cursor);
      ShrinkingWalkIsWalk(Without(corpus, done), page.cursor, if embedded == [] then [] else embedded[1..], itemLimit, byteLimit);
      SameWalk(Without(corpus, done), corpus, page.cursor, itemLimit, byteLimit);
    }
  }

  lemma PassedIsBehind(embedded: seq<set<int>>, cursor: int)
    ensures embedded != [] ==> forall id :: id in Passed(embedded[0], cursor) ==> id <= cursor
  {
  }

  /** No page can make the kernel partitioner fail: each entry has text and fits one kernel. */
  lemma PageCanBePartitioned(corpus: seq<Candidate>, after: int, itemLimit: nat, byteLimit: int)
    requires !PageFails(corpus, after, itemLimit, byteLimit)
    ensures forall i :: 0 <= i < |PageOf(corpus, after, itemLimit, byteLimit).entries| ==>
      0 < ByteLen(PageOf(corpus, after, itemLimit, byteLimit).entries[i].text) <= MAX_PARTITION_BYTES
  {
    var rest := Beyond(corpus, after);
    var taken := AdmittedOf(rest[..Handled(rest, itemLimit, byteLimit, byteLimit)], byteLimit);
    AdmittedShrinks(rest[..Handled(rest, itemLimit, byteLimit, byteLimit)], byteLimit);
    forall i | 0 <= i < |taken|
      ensures 0 < ByteLen(ChunkText(taken[i])) <= MAX_PARTITION_BYTES
    {
      TextWithinSize(taken[i]);
    }
  }
}
