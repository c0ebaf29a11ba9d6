/**
  The guards in front of a corpus migration: which version histories and inventories are
  well formed, and when the database's catalogue is exactly what the inventory declares.
 */
module MigrationGuards {
  import opened Prelude

  datatype Entry = Entry(schema: string, kind: string, identity: string, create: int, remove: int)

  datatype Chain = Chain(schemas: seq<string>, versions: nat)

  /** The kinds an inventory may declare. */
  const KINDS: set<string> := {"relation", "function", "type", "trigger"}

  /** The kinds the catalogue query reports. */
  const CATALOGUE_KINDS: set<string> := KINDS + {
    "operator", "operator class", "operator family", "collation", "conversion", "text search configuration",
    "text search dictionary", "text search parser", "text search template"}

  function Key(schema: string, kind: string, identity: string): string { schema + "/" + kind + "/" + identity }

  function KeyOf(e: Entry): string { Key(e.schema, e.kind, e.identity) }

  predicate NoSlash(s: string) { '/' !in s }

  // ---- keys are identities -------------------------------------------------------------

  lemma SlashSplits(a: string, b: string, x: string, y: string)
    requires NoSlash(a) && NoSlash(b) && a + "/" + x == b + "/" + y
    ensures a == b && x == y
  {
    var s, t := a + "/" + x, b + "/" + y;
    assert s[|a|] == '/' && t[|b|] == '/';
    assert s[..|a|] == a && t[..|b|] == b;
    assert s[|a| + 1..] == x && t[|b| + 1..] == y;
  }

  /** Two objects whose schema and kind hold no slash have one key only if they are the same. */
  lemma KeyInjective(s: string, k: string, i: string, t: string, l: string, j: string)
    requires NoSlash(s) && NoSlash(t) && NoSlash(k) && NoSlash(l)
    ensures Key(s, k, i) == Key(t, l, j) <==> s == t && k == l && i == j
  {
    if Key(s, k, i) == Key(t, l, j) {
      assert Key(s, k, i) == s + "/" + (k + "/" + i) && Key(t, l, j) == t + "/" + (l + "/" + j);
      SlashSplits(s, t, k + "/" + i, l + "/" + j);
      SlashSplits(k, l, i, j);
    }
  }

  lemma KindsHaveNoSlash(kind: string)
    requires kind in CATALOGUE_KINDS
    ensures NoSlash(kind)
  {
  }

  /** The schemas of each migration chain. */
  function SchemasOf(name: string): Option<seq<string>> {
    if name == "writer" then Some(["ingest", "bronze", "silver", "gold", "config"])
    else if name == "release" then Some(["silver", "gold", "config", "release"])
    else if name == "control" then Some(["control"])
    else None
  }

  predicate SchemasPlain(c: Chain) {
    && (forall i :: 0 <= i < |c.schemas| ==> NoSlash(c.schemas[i]))
    && (forall i, j :: 0 <= i < j < |c.schemas| ==> c.schemas[i] != c.schemas[j])
  }

  /** The command migrates the chains of its named databases only. */
  ghost predicate Deployed(c: Chain) { exists name :: SchemasOf(name) == Some(c.schemas) }

  /** Their schemas are distinct and hold no slash, so keys tell objects apart. */
  lemma ChainSchemasArePlain(c: Chain)
    requires Deployed(c)
    ensures SchemasPlain(c)
  {
  }

  // ---- the inventory -------------------------------------------------------------------

  predicate EntryOk(c: Chain, e: Entry) {
    && e.schema in c.schemas && e.identity != ""
    && 1 <= e.create <= c.versions
    && (e.remove != 0 ==> e.create < e.remove <= c.versions)
    && e.kind in KINDS
  }

  predicate InventoryOk(c: Chain, entries: seq<Entry>) {
    && (forall i :: 0 <= i < |entries| ==> EntryOk(c, entries[i]))
    && (forall i, j :: 0 <= i < j < |entries| ==> KeyOf(entries[i]) != KeyOf(entries[j]))
  }

  method CheckInventory(c: Chain, entries: seq<Entry>) returns (ok: bool)
    ensures ok <==> InventoryOk(c, entries)
  {
    var seen: set<string> := {};
    for i := 0 to |entries|
      invariant InventoryOk(c, entries[..i])
      invariant seen == set j | 0 <= j < i :: KeyOf(entries[j])
    {
      var e := entries[i];
      if e.schema !in c.schemas || e.identity == "" || e.create < 1 || e.create > c.versions
        || (e.remove != 0 && (e.remove <= e.create || e.remove > c.versions)) || KeyOf(e) in seen {
        BadEntry(c, entries, i);
        return false;
      }
      if e.kind !in KINDS {
        assert !EntryOk(c, entries[i]);
        return false;
      }
      seen := seen + {KeyOf(e)};
    }
    assert entries[..|entries|] == entries;
    return true;
  }

  lemma BadEntry(c: Chain, entries: seq<Entry>, i: nat)
    requires i < |entries|
    requires !EntryOk(c, entries[i]) || exists j :: 0 <= j < i && KeyOf(entries[j]) == KeyOf(entries[i])
    ensures !InventoryOk(c, entries)
  {
  }

  // ---- the version history -------------------------------------------------------------

  datatype Row = Row(id: int, version: int, applied: bool)

  /** Versions 0, 1, 2 and so on within the chain, all applied, under increasing positive ids. */
  predicate HistoryOk(versions: nat, rows: seq<Row>) {
    forall i :: 0 <= i < |rows| ==> RowOk(versions, rows, i)
  }

  predicate RowOk(versions: nat, rows: seq<Row>, i: nat)
    requires i < |rows|
  {
    && rows[i].version == i <= versions && rows[i].applied
    && rows[i].id > (if i == 0 then 0 else rows[i - 1].id)
  }

  /** An accepted history: versions are places, and every later row has a larger id. */
  lemma {:induction false} HistoryRuns(versions: nat, rows: seq<Row>, i: nat, j: nat)
    requires HistoryOk(versions, rows) && i < j < |rows|
    ensures rows[i].version == i && rows[j].version == j && rows[j].version <= versions
    ensures 0 < rows[i].id < rows[j].id && rows[i].applied && rows[j].applied
    decreases j
  {
    assert RowOk(versions, rows, i) && RowOk(versions, rows, j);
    if i < j - 1 { HistoryRuns(versions, rows, i, j - 1); }
    if i > 0 { HistoryRuns(versions, rows, i - 1, i); }
  }

  method ReadHistory(versions: nat, tableExists: bool, rows: seq<Row>) returns (version: Option<int>)
    ensures version.Some? <==> !tableExists || HistoryOk(versions, rows)
    ensures version.Some? ==> version.value == if tableExists && rows != [] then |rows| - 1 else 0
  {
    if !tableExists { return Some(0); }
    var current, lastId, initialized := 0, 0, false;
    for i := 0 to |rows|
      invariant forall j :: 0 <= j < i ==> RowOk(versions, rows, j)
      invariant initialized <==> i > 0
      invariant lastId == (if i == 0 then 0 else rows[i - 1].id) && current == (if i == 0 then 0 else i - 1)
    {
      var row := rows[i];
      if row.id <= lastId || !row.applied || (!initialized && row.version != 0)
        || (initialized && row.version != current + 1) || row.version > versions {
        assert !RowOk(versions, rows, i);
        return None;
      }
      initialized, lastId, current := true, row.id, row.version;
    }
    return Some(current);
  }

  // ---- the catalogue -------------------------------------------------------------------

  /** One catalogue object as the query reports it. */
  datatype Object = Object(
    schema: string, kind: string, identity: string, owner: string, fromExtension: bool, versionObject: bool,
    parent: string, internal: bool, constraintSchema: string, constraintRelation: string)

  datatype SchemaRow = SchemaRow(name: string, owner: string)

  datatype Verdict = Exempt | Refused | Counted

  function VersionTablePrefix(): string { "goose_db_version" }

  function Judge(o: Object, owner: string, schemas: set<string>, expected: set<string>): Verdict {
    if o.kind == "relation" && VersionTablePrefix() <= o.identity && !o.versionObject then Refused
    else if o.fromExtension then Exempt
    else if o.schema == "public" then if o.versionObject && o.owner == owner then Exempt else Refused
    else if o.schema !in schemas || o.owner != owner then Refused
    else if o.kind == "type" && o.parent != "" && Key(o.schema, "relation", o.parent) in expected then Exempt
    else if o.kind == "trigger" && o.internal then
      if Key(o.schema, "relation", o.parent) in expected
        && Key(o.constraintSchema, "relation", o.constraintRelation) in expected then Exempt else Refused
    else if Key(o.schema, o.kind, o.identity) in expected then Counted else Refused
  }

  predicate Live(e: Entry, version: int) { e.create <= version && (e.remove == 0 || e.remove > version) }

  function Expected(inventory: seq<Entry>, version: int): set<string> {
    set i | 0 <= i < |inventory| && Live(inventory[i], version) :: KeyOf(inventory[i])
  }

  predicate SchemasOk(c: Chain, version: int, owner: string, rows: seq<SchemaRow>) {
    && (forall i :: 0 <= i < |rows| ==> version != 0 && rows[i].name in c.schemas && rows[i].owner == owner)
    && (version > 0 ==> |Names(rows)| == |c.schemas|)
  }

  function Names(rows: seq<SchemaRow>): set<string> { set i | 0 <= i < |rows| :: rows[i].name }

  predicate CatalogueOk(objects: seq<Object>, owner: string, schemas: set<string>, expected: set<string>) {
    && (forall i :: 0 <= i < |objects| ==> Judge(objects[i], owner, schemas, expected) != Refused)
    && (forall key :: key in expected ==> key in CountedKeys(objects, owner, schemas, expected))
  }

  function CountedKeys(objects: seq<Object>, owner: string, schemas: set<string>, expected: set<string>): set<string> {
    set i | 0 <= i < |objects| && Judge(objects[i], owner, schemas, expected) == Counted ::
      Key(objects[i].schema, objects[i].kind, objects[i].identity)
  }

  method Preflight(
    c: Chain, inventory: seq<Entry>, version: int, owner: string, schemaRows: seq<SchemaRow>, objects: seq<Object>)
    returns (ok: bool)
    ensures ok <==>
      && SchemasOk(c, version, owner, schemaRows)
      && CatalogueOk(objects, owner, Names(schemaRows), Expected(inventory, version))
  {
    hide *;
    var schemasOk, seenSchemas := CheckSchemas(c, version, owner, schemaRows);
    if !schemasOk { return false; }
    var expected := ExpectedKeys(inventory, version);
    ok := CheckCatalogue(objects, owner, seenSchemas, expected);
  }

  method CheckSchemas(c: Chain, version: int, owner: string, rows: seq<SchemaRow>)
    returns (ok: bool, seenSchemas: set<string>)
    ensures ok <==> SchemasOk(c, version, owner, rows)
    ensures ok ==> seenSchemas == Names(rows)
  {
    seenSchemas := {};
    for i := 0 to |rows|
      invariant seenSchemas == Names(rows[..i])
      invariant forall j :: 0 <= j < i ==> version != 0 && rows[j].name in c.schemas && rows[j].owner == owner
    {
      var row := rows[i];
      if version == 0 || row.name !in c.schemas || row.owner != owner { return false, seenSchemas; }
      NamesOneMore(rows, i);
      seenSchemas := seenSchemas + {row.name};
    }
    assert rows[..|rows|] == rows;
    ok := version <= 0 || |seenSchemas| == |c.schemas|;
  }

  lemma NamesOneMore(rows: seq<SchemaRow>, i: nat)
    requires i < |rows|
    ensures Names(rows[..i + 1]) == Names(rows[..i]) + {rows[i].name}
  {
    assert rows[..i + 1] == rows[..i] + [rows[i]];
  }

  /** The keys of the inventory entries that exist at this version. */
  method ExpectedKeys(inventory: seq<Entry>, version: int) returns (expected: set<string>)
    ensures expected == Expected(inventory, version)
  {
    expected := {};
    for i := 0 to |inventory|
      invariant expected == Expected(inventory[..i], version)
    {
      var entry := inventory[i];
      ExpectedOneMore(inventory, i, version);
      if entry.create <= version && (entry.remove == 0 || entry.remove > version) {
        expected := expected + {KeyOf(entry)};
      }
    }
    assert inventory[..|inventory|] == inventory;
  }

  lemma ExpectedOneMore(inventory: seq<Entry>, i: nat, version: int)
    requires i < |inventory|
    ensures Expected(inventory[..i + 1], version)
         == Expected(inventory[..i], version) + if Live(inventory[i], version) then {KeyOf(inventory[i])} else {}
  {
    assert inventory[..i + 1] == inventory[..i] + [inventory[i]];
    hide KeyOf, Live;
  }

  method CheckCatalogue(objects: seq<Object>, owner: string, seenSchemas: set<string>, expected: set<string>)
    returns (ok: bool)
    ensures ok <==> CatalogueOk(objects, owner, seenSchemas, expected)
  {
    var seen: set<string> := {};
    for i := 0 to |objects|
      invariant forall j :: 0 <= j < i ==> Judge(objects[j], owner, seenSchemas, expected) != Refused
      invariant seen == CountedKeys(objects[..i], owner, seenSchemas, expected)
    {
      var o := objects[i];
      var key := Key(o.schema, o.kind, o.identity);
      CountedOneMore(objects, i, owner, seenSchemas, expected);
      if o.kind == "relation" && VersionTablePrefix() <= o.identity && !o.versionObject { return false; }
      if o.fromExtension { continue; }
      if o.schema == "public" {
        if o.versionObject && o.owner == owner { continue; }
        return false;
      }
      if o.schema !in seenSchemas || o.owner != owner { return false; }
      if o.kind == "type" && o.parent != "" && Key(o.schema, "relation", o.parent) in expected { continue; }
      if o.kind == "trigger" && o.internal {
        if Key(o.schema, "relation", o.parent) in expected
          && Key(o.constraintSchema, "relation", o.constraintRelation) in expected { continue; }
        return false;
      }
      if key !in expected { return false; }
      seen := seen + {key};
    }
    assert objects[..|objects|] == objects;
    ok := expected <= seen;
  }

  lemma CountedOneMore(objects: seq<Object>, i: nat, owner: string, schemas: set<string>, expected: set<string>)
    requires i < |objects|
    ensures CountedKeys(objects[..i + 1], owner, schemas, expected)
         == CountedKeys(objects[..i], owner, schemas, expected)
            + (if Judge(objects[i], owner, schemas, expected) == Counted
               then {Key(objects[i].schema, objects[i].kind, objects[i].identity)} else {})
  {
    hide Judge, Key;
    assert objects[..i + 1] == objects[..i] + [objects[i]];
  }

  /** An accepted entry names an object, and has its time within the chain: from its creation up to its removal. */
  lemma EntryHasItsTime(c: Chain, e: Entry, version: int)
    requires EntryOk(c, e)
    ensures e.identity != "" && e.schema in c.schemas && 1 <= e.create <= c.versions
    ensures Live(e, e.create)
    ensures version < e.create ==> !Live(e, version)
    ensures e.remove != 0 ==> e.remove <= c.versions && (e.remove <= version ==> !Live(e, version))
  {
  }

  // ---- what acceptance means -----------------------------------------------------------

  predicate Declares(e: Entry, o: Object) { e.schema == o.schema && e.kind == o.kind && e.identity == o.identity }

  /**
    An accepted catalogue is the inventory at that version: every object that is not
    exempt is declared by a live entry, and so is of a kind that an inventory may
    declare; every live entry has its object, and the keys on the two sides are the
    same set. Objects of any kind may be there, as those of extensions are; all others
    belong to the expected owner.
   */
  lemma AcceptedIsDeclared(
    c: Chain, inventory: seq<Entry>, version: int, owner: string, schemaRows: seq<SchemaRow>, objects: seq<Object>)
    requires Deployed(c) && InventoryOk(c, inventory)
    requires forall i :: 0 <= i < |objects| ==> objects[i].kind in CATALOGUE_KINDS
    requires SchemasOk(c, version, owner, schemaRows)
    requires CatalogueOk(objects, owner, Names(schemaRows), Expected(inventory, version))
    ensures CountedKeys(objects, owner, Names(schemaRows), Expected(inventory, version)) == Expected(inventory, version)
    ensures forall i :: 0 <= i < |objects| ==>
      Judge(objects[i], owner, Names(schemaRows), Expected(inventory, version)) == Exempt ||
      exists k :: 0 <= k < |inventory| && Live(inventory[k], version) && Declares(inventory[k], objects[i])
    ensures forall i :: 0 <= i < |objects| ==>
      Judge(objects[i], owner, Names(schemaRows), Expected(inventory, version)) == Exempt || objects[i].kind in KINDS
    ensures forall i :: 0 <= i < |objects| ==> objects[i].fromExtension || objects[i].owner == owner
    ensures forall k :: 0 <= k < |inventory| && Live(inventory[k], version) ==>
      exists i :: 0 <= i < |objects| && Declares(inventory[k], objects[i])
  {
    var schemas, expected := Names(schemaRows), Expected(inventory, version);
    forall i | 0 <= i < |objects|
      ensures objects[i].fromExtension || objects[i].owner == owner
    {
      NotRefusedIsOwned(objects[i], owner, schemas, expected);
    }
    hide Deployed, SchemasOk, Judge, CATALOGUE_KINDS, KINDS, EntryOk, Key, Names;
    forall i | 0 <= i < |objects| && Judge(objects[i], owner, schemas, expected) != Exempt
      ensures exists k :: 0 <= k < |inventory| && Live(inventory[k], version) && Declares(inventory[k], objects[i])
      ensures objects[i].kind in KINDS
    {
      var k := DeclaringEntry(c, inventory, version, owner, schemaRows, objects[i]);
    }
    forall k | 0 <= k < |inventory| && Live(inventory[k], version)
      ensures exists i :: 0 <= i < |objects| && Declares(inventory[k], objects[i])
    {
      var e := inventory[k];
      assert KeyOf(e) in expected;
      var i :| 0 <= i < |objects| && Judge(objects[i], owner, schemas, expected) == Counted
        && Key(objects[i].schema, objects[i].kind, objects[i].identity) == KeyOf(e);
      CountedIsInSchema(objects[i], owner, schemas, expected);
      SameObject(c, e, objects[i], owner, schemaRows, version);
    }
  }

  lemma NotRefusedIsOwned(o: Object, owner: string, schemas: set<string>, expected: set<string>)
    requires Judge(o, owner, schemas, expected) != Refused
    ensures o.fromExtension || o.owner == owner
  {
  }

  lemma CountedIsInSchema(o: Object, owner: string, schemas: set<string>, expected: set<string>)
    requires Judge(o, owner, schemas, expected) == Counted
    ensures o.schema in schemas && Key(o.schema, o.kind, o.identity) in expected
  {
  }

  lemma DeclaringEntry(
    c: Chain, inventory: seq<Entry>, version: int, owner: string, schemaRows: seq<SchemaRow>, o: Object)
    returns (k: nat)
    requires Deployed(c) && InventoryOk(c, inventory) && SchemasOk(c, version, owner, schemaRows)
    requires o.kind in CATALOGUE_KINDS && Judge(o, owner, Names(schemaRows), Expected(inventory, version)) == Counted
    ensures k < |inventory| && Live(inventory[k], version) && Declares(inventory[k], o) && o.kind in KINDS
  {
    hide Deployed, SchemasOk, Judge, CATALOGUE_KINDS, KINDS, Key, Names;
    CountedIsInSchema(o, owner, Names(schemaRows), Expected(inventory, version));
    k :| 0 <= k < |inventory| && Live(inventory[k], version) && KeyOf(inventory[k]) == Key(o.schema, o.kind, o.identity);
    SameObject(c, inventory[k], o, owner, schemaRows, version);
  }

  /** An object of a kind no inventory declares passes only as part of an extension or of the version table. */
  lemma StrayKindIff(
    c: Chain, inventory: seq<Entry>, version: int, owner: string, schemaRows: seq<SchemaRow>, o: Object)
    requires Deployed(c) && InventoryOk(c, inventory) && SchemasOk(c, version, owner, schemaRows)
    requires o.kind in CATALOGUE_KINDS && o.kind !in KINDS
    ensures Judge(o, owner, Names(schemaRows), Expected(inventory, version)) == Refused <==>
      !o.fromExtension && !(o.schema == "public" && o.versionObject && o.owner == owner)
  {
    hide Deployed;
    if o.schema in Names(schemaRows) && Key(o.schema, o.kind, o.identity) in Expected(inventory, version) {
      var k :| 0 <= k < |inventory| && Live(inventory[k], version) && KeyOf(inventory[k]) == Key(o.schema, o.kind, o.identity);
      SameObject(c, inventory[k], o, owner, schemaRows, version);
      assert false;
    }
  }

  /** The inventory declares this object at this version. */
  predicate Declared(inventory: seq<Entry>, version: int, schema: string, kind: string, identity: string) {
    exists k :: 0 <= k < |inventory| && Live(inventory[k], version)
      && inventory[k].schema == schema && inventory[k].kind == kind && inventory[k].identity == identity
  }

  lemma ExpectedIff(c: Chain, inventory: seq<Entry>, version: int, schema: string, kind: string, identity: string)
    requires Deployed(c) && InventoryOk(c, inventory) && NoSlash(schema) && kind in CATALOGUE_KINDS
    ensures Key(schema, kind, identity) in Expected(inventory, version) <==> Declared(inventory, version, schema, kind, identity)
  {
    ChainSchemasArePlain(c);
    KindsHaveNoSlash(kind);
    hide Deployed, CATALOGUE_KINDS, KINDS, Key;
    forall k | 0 <= k < |inventory| && Live(inventory[k], version)
      ensures KeyOf(inventory[k]) == Key(schema, kind, identity) <==>
        inventory[k].schema == schema && inventory[k].kind == kind && inventory[k].identity == identity
    {
      var e := inventory[k];
      assert EntryOk(c, e);
      EntryKindIsPlain(c, e);
      KeyInjective(e.schema, e.kind, e.identity, schema, kind, identity);
    }
  }

  lemma EntryKindIsPlain(c: Chain, e: Entry)
    requires EntryOk(c, e)
    ensures NoSlash(e.kind)
  {
    KindsHaveNoSlash(e.kind);
  }

  /** An ordinary object of a chain schema: of no extension and none of the version table's. */
  predicate Ordinary(o: Object, owner: string, schemas: set<string>) {
    !o.fromExtension && o.schema in schemas && o.schema != "public" && o.owner == owner
  }

  /**
    A row or array type needs no entry of its own exactly when its relation has one; an
    internal trigger passes exactly when both its table and its constraint's do.
   */
  lemma DependentsIff(
    c: Chain, inventory: seq<Entry>, version: int, owner: string, schemaRows: seq<SchemaRow>, o: Object)
    requires Deployed(c) && InventoryOk(c, inventory) && SchemasOk(c, version, owner, schemaRows)
    requires Ordinary(o, owner, Names(schemaRows)) && NoSlash(o.constraintSchema)
    ensures
      var verdict := Judge(o, owner, Names(schemaRows), Expected(inventory, version));
      && (o.kind == "type" ==>
            (verdict == Exempt <==> o.parent != "" && Declared(inventory, version, o.schema, "relation", o.parent)))
      && (o.kind == "trigger" && o.internal ==>
            && verdict != Counted
            && (verdict == Exempt <==>
                  && Declared(inventory, version, o.schema, "relation", o.parent)
                  && Declared(inventory, version, o.constraintSchema, "relation", o.constraintRelation)))
  {
    ChainSchemasArePlain(c);
    hide Deployed, Expected, Key, Declared, InventoryOk;
    ExpectedIff(c, inventory, version, o.schema, "relation", o.parent);
    ExpectedIff(c, inventory, version, o.constraintSchema, "relation", o.constraintRelation);
  }

  /** Every other object passes exactly when it is declared itself, under its own name. */
  lemma OthersIff(
    c: Chain, inventory: seq<Entry>, version: int, owner: string, schemaRows: seq<SchemaRow>, o: Object)
    requires Deployed(c) && InventoryOk(c, inventory) && SchemasOk(c, version, owner, schemaRows)
    requires Ordinary(o, owner, Names(schemaRows)) && o.kind in CATALOGUE_KINDS
    requires !(o.kind == "type" && o.parent != "") && !(o.kind == "trigger" && o.internal)
    ensures
      Judge(o, owner, Names(schemaRows), Expected(inventory, version)) != Refused <==>
      && Declared(inventory, version, o.schema, o.kind, o.identity)
      && (o.kind == "relation" && "goose_db_version" <= o.identity ==> o.versionObject)
  {
    ChainSchemasArePlain(c);
    hide Deployed, Expected, Key, Declared, InventoryOk;
    ExpectedIff(c, inventory, version, o.schema, o.kind, o.identity);
  }

  lemma SameObject(c: Chain, e: Entry, o: Object, owner: string, schemaRows: seq<SchemaRow>, version: int)
    requires Deployed(c) && EntryOk(c, e)
    requires SchemasOk(c, version, owner, schemaRows) && o.schema in Names(schemaRows) && o.kind in CATALOGUE_KINDS
    requires KeyOf(e) == Key(o.schema, o.kind, o.identity)
    ensures Declares(e, o)
  {
    ChainSchemasArePlain(c);
    KindsHaveNoSlash(e.kind);
    KindsHaveNoSlash(o.kind);
    KeyInjective(e.schema, e.kind, e.identity, o.schema, o.kind, o.identity);
  }

  /** Acceptance beyond version zero means exactly those schemas exist. */
  lemma SchemasAreTheChains(c: Chain, version: int, owner: string, rows: seq<SchemaRow>)
    requires Deployed(c) && SchemasOk(c, version, owner, rows)
    ensures version > 0 ==> Names(rows) == set s | s in c.schemas
    ensures version == 0 ==> Names(rows) == {}
  {
    ChainSchemasArePlain(c);
    if version > 0 {
      DistinctSize(c.schemas);
      SubsetSize(Names(rows), set s | s in c.schemas);
    }
  }

  lemma {:induction false} DistinctSize(names: seq<string>)
    requires forall i, j :: 0 <= i < j < |names| ==> names[i] != names[j]
    ensures |set s | s in names| == |names|
  {
    if names != [] {
      var before, last := names[..|names| - 1], names[|names| - 1];
      DistinctSize(before);
      assert names == before + [last];
      assert (set s | s in names) == (set s | s in before) + {last};
    }
  }
}
