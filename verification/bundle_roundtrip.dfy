/** When importing an exported domain under a new name gives a faithful copy. */
module BundleRoundTrip {
  import opened Options
  import opened Text
  import opened GraphStore
  import opened GraphIntegrity
  import opened Bundle

  // ---------- Faithful copies ----------

  ghost predicate OneToOne(m: map<string, string>) {
    forall x, y :: x in m && y in m && m[x] == m[y] ==> x == y
  }

  /** Equal up to the note of the original id. */
  ghost predicate SameDoc(a: DocRow, b: DocRow) {
    a.text == b.text && a.embedding == b.embedding && a.metadata - {ORIG_DOC_ID} == b.metadata - {ORIG_DOC_ID}
  }

  function EntityIds(db: Db, domain: string): set<string> {
    set k | k in db.entities && k.domain == domain :: db.entities[k].id
  }

  ghost predicate DocsMatch(db: Db, d: string, c: Db, t: string, docMap: map<string, string>) {
    && docMap.Keys == UserDocs(db, d) && docMap.Values == UserDocs(c, t) && OneToOne(docMap)
    && (forall id :: id in docMap ==> docMap[id] in c.docs && SameDoc(db.docs[id], c.docs[docMap[id]]))
  }

  ghost predicate EntitiesMatch(db: Db, d: string, c: Db, t: string, idMap: map<string, string>) {
    && idMap.Keys == EntityIds(db, d) && idMap.Values == EntityIds(c, t) && OneToOne(idMap)
    && (forall k: EntityKey :: k.domain == d ==> (k in db.entities <==> k.(domain := t) in c.entities))
    && (forall k :: k in db.entities && k.domain == d && k.(domain := t) in c.entities && db.entities[k].id in idMap ==>
          c.entities[k.(domain := t)].id == idMap[db.entities[k].id])
  }

  /** The copy of a mention. */
  ghost predicate MentionCopy(
    m: Mention, q: Mention, t: string, docMap: map<string, string>, idMap: map<string, string>) {
    m.doc in docMap && m.entity in idMap && q == Mention(t, docMap[m.doc], idMap[m.entity])
  }

  ghost predicate MentionsMatch(
    db: Db, d: string, c: Db, t: string, docMap: map<string, string>, idMap: map<string, string>) {
    && (forall m :: m in db.mentions && m.domain == d ==>
          exists q :: q in c.mentions && MentionCopy(m, q, t, docMap, idMap))
    && (forall q :: q in c.mentions && q.domain == t ==>
          exists m :: m in db.mentions && m.domain == d && MentionCopy(m, q, t, docMap, idMap))
  }

  /** The copy of an edge: endpoints renamed and kept in their order, relation as stored. */
  ghost predicate EdgeCopy(e: EdgeKey, g: EdgeKey, t: string, idMap: map<string, string>) {
    e.src in idMap && e.dst in idMap && g == EdgeKey(t, idMap[e.src], idMap[e.dst], e.relation)
  }

  ghost predicate EdgesMatch(db: Db, d: string, c: Db, t: string, idMap: map<string, string>) {
    && (forall e :: e in db.edges && e.domain == d ==> exists g :: g in c.edges && EdgeCopy(e, g, t, idMap))
    && (forall g :: g in c.edges && g.domain == t ==>
          exists e :: e in db.edges && e.domain == d && EdgeCopy(e, g, t, idMap))
  }

  ghost predicate AliasesMatch(db: Db, d: string, c: Db, t: string) {
    forall a: string ::
      && (AliasKey(d, a) in db.aliases <==> AliasKey(t, a) in c.aliases)
      && (AliasKey(d, a) in db.aliases && AliasKey(t, a) in c.aliases ==>
            db.aliases[AliasKey(d, a)] == c.aliases[AliasKey(t, a)])
  }

  ghost predicate CountsExactIn(c: Db, t: string) {
    forall k :: k in c.entities && k.domain == t ==> c.entities[k].mentions == Rows(c.mentions, t, c.entities[k].id)
  }

  /** Domain `t` of `c` is domain `d` of `db` with documents and entities renamed one to one. */
  ghost predicate Faithful(
    db: Db, d: string, c: Db, t: string, docMap: map<string, string>, idMap: map<string, string>) {
    && DocsMatch(db, d, c, t, docMap)
    && EntitiesMatch(db, d, c, t, idMap)
    && MentionsMatch(db, d, c, t, docMap, idMap)
    && EdgesMatch(db, d, c, t, idMap)
    && AliasesMatch(db, d, c, t)
    && CountsExactIn(c, t)
  }

  /** What has to hold of a domain before it is exported. */
  ghost predicate Exportable(db: Db, d: string) {
    && "" !in UserDocs(db, d)
    && (forall m :: m in db.mentions && m.domain == d ==> m.doc in UserDocs(db, d))
    && (forall k :: k in db.entities && k.domain == d ==> k.name != "")
    && (forall e :: e in db.edges && e.domain == d ==> e.relation != "" && ImportRelation(e.relation) == e.relation)
    && (forall k :: k in db.aliases && k.domain == d ==> k.alias != "" && db.aliases[k] != "")
  }

  ghost predicate TargetEmpty(db: Db, t: string) {
    && DocsOf(db, t) == {}
    && (forall k :: k in db.aliases ==> k.domain != t)
    && (forall k :: k in db.entities ==> k.domain != t)
    && (forall m :: m in db.mentions ==> m.domain != t)
    && (forall e :: e in db.edges ==> e.domain != t)
  }

  /** The document ids drawn for an import are new, and so is the seed document's. */
  ghost predicate FreshIds(db: Db, t: string, ids: seq<string>, n: nat) {
    && n <= |ids| && SeedId(t) !in db.docs
    && (forall i :: 0 <= i < n ==> ids[i] != "" && ids[i] !in db.docs && ids[i] != SeedId(t))
    && (forall i, j :: 0 <= i < j < n ==> ids[i] != ids[j])
  }

  // ---------- What the import loops leave ----------

  lemma {:induction false} DocsAfterLookup(
    docs: map<string, DocRow>, t: string, rows: seq<Option<BundleDoc>>, ids: seq<string>, k: nat)
    requires k <= |rows| <= |ids|
    requires forall i :: 0 <= i < |rows| ==> rows[i].Some?
    requires forall i, j :: 0 <= i < j < |rows| ==> ids[i] != ids[j]
    ensures
      var after := DocsAfter(docs, t, rows, ids, k);
      && (forall i :: 0 <= i < k ==> ids[i] in after && after[ids[i]] == NewDocRow(t, rows[i].value))
      && (forall id :: (forall i :: 0 <= i < k ==> ids[i] != id) ==>
            (id in after <==> id in docs) && (id in docs ==> after[id] == docs[id]))
    decreases k
  {
    hide NewDocRow;
    if k > 0 {
      DocsAfterLookup(docs, t, rows, ids, k - 1);
    }
  }

  lemma {:induction false} DocMapLookup(rows: seq<Option<BundleDoc>>, ids: seq<string>, k: nat)
    requires k <= |rows| <= |ids|
    requires forall i :: 0 <= i < |rows| ==> rows[i].Some?
    requires forall i, j :: 0 <= i < j < |rows| ==> rows[i].value.id != rows[j].value.id
    ensures
      var m := DocMap(rows, ids, k);
      && (forall i :: 0 <= i < k && rows[i].value.id != "" ==> rows[i].value.id in m && m[rows[i].value.id] == ids[i])
      && (forall id :: id in m ==> id != "" && exists i :: 0 <= i < k && rows[i].value.id == id)
    decreases k
  {
    if k > 0 {
      DocMapLookup(rows, ids, k - 1);
      var m, last := DocMap(rows, ids, k), rows[k - 1].value.id;
      assert m == if last == "" then DocMap(rows, ids, k - 1) else DocMap(rows, ids, k - 1)[last := ids[k - 1]];
      hide DocMap;
      forall id | id in m ensures id != "" && exists i :: 0 <= i < k && rows[i].value.id == id {
        if id != last {
          var i :| 0 <= i < k - 1 && rows[i].value.id == id;
        }
      }
    }
  }

  lemma {:induction false} AliasesAfterLookup(aliases: map<AliasKey, string>, t: string, rows: seq<BundleAlias>, k: nat)
    requires k <= |rows|
    requires forall i, j :: 0 <= i < j < |rows| ==> rows[i].alias != rows[j].alias
    ensures
      var after := AliasesAfter(aliases, t, rows, k).0;
      && (forall i :: 0 <= i < k && GoodAlias(rows[i]) ==>
            AliasKey(t, rows[i].alias) in after && after[AliasKey(t, rows[i].alias)] == rows[i].canonical)
      && (forall key :: key in after ==>
            key in aliases || exists i :: 0 <= i < k && GoodAlias(rows[i]) && key == AliasKey(t, rows[i].alias))
      && (forall key: AliasKey :: key.domain != t ==>
            (key in after <==> key in aliases) && (key in aliases ==> after[key] == aliases[key]))
    decreases k
  {
    if k > 0 {
      AliasesAfterLookup(aliases, t, rows, k - 1);
    }
  }

  /** Rows with one id get one new id. */
  ghost predicate Consistent(rt: Runtime, t: string, rows: seq<Option<BundleEntity>>) {
    forall i, j ::
      0 <= i < |rows| && 0 <= j < |rows| && GoodEntity(rows[i]) && GoodEntity(rows[j]) &&
      rows[i].value.id == rows[j].value.id ==>
        NewId(rt, t, rows[i].value) == NewId(rt, t, rows[j].value)
  }

  ghost predicate GoodRowFor(rows: seq<Option<BundleEntity>>, k: nat, id: string)
    requires k <= |rows|
  {
    exists i :: 0 <= i < k && GoodEntity(rows[i]) && rows[i].value.id == id
  }

  lemma {:induction false} IdMapLookup(
    rt: Runtime, entities: Entities, t: string, rows: seq<Option<BundleEntity>>, k: nat)
    requires k <= |rows| && Consistent(rt, t, rows)
    requires forall i :: 0 <= i < |rows| && rows[i].Some? ==> rows[i].value.id != ""
    ensures
      var m := EntitiesAfter(rt, entities, t, rows, k).idMap;
      && (forall i :: 0 <= i < k && GoodEntity(rows[i]) ==>
            rows[i].value.id in m && m[rows[i].value.id] == NewId(rt, t, rows[i].value))
      && (forall id :: id in m ==> GoodRowFor(rows, k, id))
    decreases k
  {
    hide NewId;
    hide NewKey;
    hide PutEntity;
    hide Upper;
    if k > 0 {
      IdMapLookup(rt, entities, t, rows, k - 1);
      var before, m := EntitiesAfter(rt, entities, t, rows, k - 1).idMap, EntitiesAfter(rt, entities, t, rows, k).idMap;
      forall id | id in m ensures GoodRowFor(rows, k, id) {
        if id in before {
          assert GoodRowFor(rows, k - 1, id);
        } else {
          assert GoodEntity(rows[k - 1]) && rows[k - 1].value.id == id;
        }
      }
    }
  }

  lemma {:induction false} EntitiesAfterLookup(
    rt: Runtime, entities: Entities, t: string, rows: seq<Option<BundleEntity>>, k: nat)
    requires k <= |rows|
    requires forall key :: key in entities ==> key.domain != t
    ensures
      var after := EntitiesAfter(rt, entities, t, rows, k).entities;
      && (forall i :: 0 <= i < k && GoodEntity(rows[i]) ==> NewKey(t, rows[i].value) in after)
      && (forall key :: key in after && key.domain == t ==>
            after[key] == EntityRow(EntityId(rt, t, key.typ, key.name), 0))
      && (forall key :: key in after && key.domain == t ==>
            exists i :: 0 <= i < k && GoodEntity(rows[i]) && key == NewKey(t, rows[i].value))
      && (forall key: EntityKey :: key.domain != t ==>
            (key in after <==> key in entities) && (key in entities ==> after[key] == entities[key]))
    decreases k
  {
    hide EntityId;
    hide Upper;
    if k > 0 {
      EntitiesAfterLookup(rt, entities, t, rows, k - 1);
    }
  }

  lemma {:induction false} MentionsAfterLookup(
    mentions: set<Mention>, t: string, docMap: map<string, string>, idMap: map<string, string>,
    rows: seq<Option<BundleMention>>, k: nat)
    requires k <= |rows|
    ensures
      var after := MentionsAfter(mentions, t, docMap, idMap, rows, k).0;
      forall q :: q in after <==>
        q in mentions || exists i :: 0 <= i < k && MapMention(t, docMap, idMap, rows[i]) == Some(q)
    decreases k
  {
    hide MapMention;
    if k > 0 {
      MentionsAfterLookup(mentions, t, docMap, idMap, rows, k - 1);
    }
  }

  lemma {:induction false} EdgesAfterLookup(
    edges: Edges, t: string, docMap: map<string, string>, idMap: map<string, string>, rows: seq<Option<BundleEdge>>,
    k: nat)
    requires k <= |rows|
    ensures
      var after := EdgesAfter(edges, t, docMap, idMap, rows, k).edges;
      && (forall g :: g in after <==> g in edges || exists i :: 0 <= i < k && MapEdge(t, idMap, rows[i]) == Some(g))
      && (forall g: EdgeKey :: g.domain != t && g in edges ==> after[g] == edges[g])
    decreases k
  {
    hide ImportRelation;
    if k > 0 {
      EdgesAfterLookup(edges, t, docMap, idMap, rows, k - 1);
    }
  }

  // ---------- What an export holds ----------

  lemma ExportedDocs(install: Install, db: Db, d: string, b: Bundle)
    requires IsExport(install, db, d, b)
    ensures forall i :: 0 <= i < |b.docs| ==> b.docs[i].Some?
    ensures forall i :: 0 <= i < |b.docs| ==>
      var row := b.docs[i].value;
      row.id in UserDocs(db, d) && row.text == db.docs[row.id].text && row.metadata == db.docs[row.id].metadata
        && row.embedding == db.docs[row.id].embedding
    ensures forall i, j :: 0 <= i < j < |b.docs| ==> b.docs[i].value.id != b.docs[j].value.id
    ensures forall id :: id in UserDocs(db, d) ==> exists i :: 0 <= i < |b.docs| && b.docs[i].value.id == id
  {
    forall i | 0 <= i < |b.docs| ensures b.docs[i] in DocRows(db, d) { assert b.docs[i] in b.docs; }
    forall id | id in UserDocs(db, d) ensures exists i :: 0 <= i < |b.docs| && b.docs[i].value.id == id {
      var row := Some(BundleDoc(id, db.docs[id].text, db.docs[id].metadata, db.docs[id].embedding));
      assert row in DocRows(db, d);
      assert row in b.docs;
    }
  }

  lemma ExportedEntities(rt: Runtime, install: Install, db: Db, d: string, b: Bundle)
    requires IsExport(install, db, d, b) && SoundIn(rt, db, d) && Lawful(rt)
    ensures forall i :: 0 <= i < |b.entities| ==> b.entities[i].Some?
    ensures forall i :: 0 <= i < |b.entities| ==>
      var row := b.entities[i].value;
      var k := EntityKey(d, row.typ, row.name);
      k in db.entities && row.id == db.entities[k].id && row.id == EntityId(rt, d, row.typ, row.name) && row.id != ""
        && row.typ in ENTITY_TYPES
    ensures forall k :: k in db.entities && k.domain == d ==>
      exists i :: 0 <= i < |b.entities| && b.entities[i].value.typ == k.typ && b.entities[i].value.name == k.name
        && b.entities[i].value.id == db.entities[k].id
  {
    hide EntityId;
    hide Mentioned;
    forall i | 0 <= i < |b.entities|
      ensures b.entities[i].Some?
      ensures
        var row := b.entities[i].value;
        var k := EntityKey(d, row.typ, row.name);
        k in db.entities && row.id == db.entities[k].id && row.id == EntityId(rt, d, row.typ, row.name) && row.id != ""
          && row.typ in ENTITY_TYPES
    {
      assert b.entities[i] in b.entities;
      assert b.entities[i] in EntityRows(db, d);
      var row := b.entities[i].value;
      assert EntityOk(rt, db, EntityKey(d, row.typ, row.name));
      IdNotEmpty(rt, d, row.typ, row.name);
    }
    forall k | k in db.entities && k.domain == d
      ensures exists i ::
        0 <= i < |b.entities| && b.entities[i].value.typ == k.typ &&
        b.entities[i].value.name == k.name && b.entities[i].value.id == db.entities[k].id
    {
      var row := Some(BundleEntity(db.entities[k].id, k.name, k.typ, db.entities[k].mentions));
      assert row in EntityRows(db, d);
      assert row in b.entities;
    }
  }

  lemma IdNotEmpty(rt: Runtime, d: string, typ: string, name: string)
    requires Lawful(rt)
    ensures EntityId(rt, d, typ, name) != ""
  {
  }

  lemma ExportedAreConsistent(rt: Runtime, install: Install, db: Db, d: string, b: Bundle, t: string)
    requires IsExport(install, db, d, b) && SoundIn(rt, db, d) && Lawful(rt)
    ensures Consistent(rt, t, b.entities)
    ensures forall i :: 0 <= i < |b.entities| ==> b.entities[i].Some?
    ensures forall i :: 0 <= i < |b.entities| ==> (GoodEntity(b.entities[i]) <==> b.entities[i].value.name != "")
    ensures forall i :: 0 <= i < |b.entities| ==>
        NewKey(t, b.entities[i].value) == EntityKey(t, b.entities[i].value.typ, b.entities[i].value.name)
    ensures forall i :: 0 <= i < |b.entities| ==>
        NewId(rt, t, b.entities[i].value) == EntityId(rt, t, b.entities[i].value.typ, b.entities[i].value.name)
  {
    hide EntityId;
    hide Upper;
    hide SoundIn;
    ExportedEntities(rt, install, db, d, b);
    forall i | 0 <= i < |b.entities| ensures Upper(b.entities[i].value.typ) == b.entities[i].value.typ {
      TypesAreUpper(b.entities[i].value.typ);
    }
    forall i, j | 0 <= i < |b.entities| && 0 <= j < |b.entities| && b.entities[i].value.id == b.entities[j].value.id
      ensures NewId(rt, t, b.entities[i].value) == NewId(rt, t, b.entities[j].value)
    {
      var x, y := b.entities[i].value, b.entities[j].value;
      IdParts(rt, d, x.typ, x.name, y.typ, y.name);
      IdParts(rt, t, x.typ, x.name, y.typ, y.name);
    }
  }

  // ---------- Part by part ----------

  lemma MetadataNote(m: map<string, string>, id: string)
    ensures m[ORIG_DOC_ID := id] - {ORIG_DOC_ID} == m - {ORIG_DOC_ID}
  {
  }

  /** Each imported document is the exported one. */
  lemma ImportedDoc(t: string, b: Bundle, i: nat)
    requires i < |b.docs| && b.docs[i].Some?
    ensures
      var row := b.docs[i].value;
      var imported := NewDocRow(t, row);
      && imported.domain == t && imported.text == row.text && imported.embedding == row.embedding
      && imported.metadata - {ORIG_DOC_ID} == row.metadata - {ORIG_DOC_ID}
      && IsSystem(imported.metadata) == IsSystem(row.metadata)
  {
    MetadataNote(b.docs[i].value.metadata, b.docs[i].value.id);
    assert SYSTEM != ORIG_DOC_ID by { assert SYSTEM[5] != ORIG_DOC_ID[5]; }
  }

  /** The user documents of the target are exactly the imported ones. */
  lemma ImportedUserDocs(
    rt: Runtime, install: Install, src: Db, dst: Db, d: string, b: Bundle, t: string, ids: seq<string>, c: Db)
    requires IsExport(install, src, d, b) && TargetEmpty(dst, t) && FreshIds(dst, t, ids, |b.docs|)
    requires c.docs ==
        DocsAfter(dst.docs[SeedId(t) := SeedRow(rt, t, b.meta.value.description)], t, b.docs, ids, |b.docs|)
    ensures forall i :: 0 <= i < |b.docs| ==>
        b.docs[i].Some? && ids[i] in c.docs && c.docs[ids[i]] == NewDocRow(t, b.docs[i].value)
    ensures UserDocs(c, t) == set i | 0 <= i < |b.docs| :: ids[i]
  {
    assert b.meta.Some?;
    assert forall i :: 0 <= i < |b.docs| ==> b.docs[i].Some? by { ExportedDocs(install, src, d, b); }
    hide NewDocRow, DocsAfter, IsExport, SeedRow, SeedId, TargetEmpty, UserDocs;
    DocsAfterLookup(dst.docs[SeedId(t) := SeedRow(rt, t, b.meta.value.description)], t, b.docs, ids, |b.docs|);
    var all := set i | 0 <= i < |b.docs| :: ids[i];
    forall i | 0 <= i < |b.docs| ensures ids[i] in UserDocs(c, t) {
      ImportedIsUserDoc(install, src, d, b, t, ids, c, i);
    }
    forall x | x in UserDocs(c, t) ensures x in all {
      OnlyImported(rt, dst, b, t, ids, c, x);
    }
  }

  lemma ImportedIsUserDoc(install: Install, db: Db, d: string, b: Bundle, t: string, ids: seq<string>, c: Db, i: nat)
    requires IsExport(install, db, d, b) && i < |b.docs| <= |ids|
    requires b.docs[i].Some? && ids[i] in c.docs && c.docs[ids[i]] == NewDocRow(t, b.docs[i].value)
    ensures ids[i] in UserDocs(c, t)
  {
    hide NewDocRow, IsExport, IsSystem;
    ExportedDocs(install, db, d, b);
    ImportedDoc(t, b, i);
    assert b.docs[i].value.id in UserDocs(db, d);
  }

  lemma OnlyImported(rt: Runtime, db: Db, b: Bundle, t: string, ids: seq<string>, c: Db, x: string)
    requires TargetEmpty(db, t) && FreshIds(db, t, ids, |b.docs|) && b.meta.Some?
    requires forall i :: 0 <= i < |b.docs| ==> b.docs[i].Some?
    requires c.docs ==
        DocsAfter(db.docs[SeedId(t) := SeedRow(rt, t, b.meta.value.description)], t, b.docs, ids, |b.docs|)
    requires x in UserDocs(c, t)
    ensures exists i :: 0 <= i < |b.docs| && ids[i] == x
  {
    hide NewDocRow, DocsAfter, SeedRow, IsSystem, SeedId;
    DocsAfterLookup(db.docs[SeedId(t) := SeedRow(rt, t, b.meta.value.description)], t, b.docs, ids, |b.docs|);
    SeedIsSystem(rt, t, b.meta.value.description);
    assert x in db.docs ==> x in DocsOf(db, db.docs[x].domain);
  }

  lemma SeedIsSystem(rt: Runtime, t: string, description: string)
    ensures IsSystem(SeedRow(rt, t, description).metadata)
  {
  }

  lemma DocMapFacts(install: Install, src: Db, dst: Db, d: string, b: Bundle, t: string, ids: seq<string>)
    requires IsExport(install, src, d, b) && FreshIds(dst, t, ids, |b.docs|)
    ensures
      var docMap := DocMap(b.docs, ids, |b.docs|);
      && (forall id :: id in docMap ==> id in UserDocs(src, d) && id != "" && docMap[id] != "")
      && (forall id :: id in UserDocs(src, d) && id != "" ==> id in docMap)
      && OneToOne(docMap)
  {
    ExportedDocs(install, src, d, b);
    DocMapLookup(b.docs, ids, |b.docs|);
  }

  lemma DocsMatchIff(
    rt: Runtime, install: Install, src: Db, dst: Db, d: string, b: Bundle, t: string, ids: seq<string>, c: Db)
    requires IsExport(install, src, d, b) && TargetEmpty(dst, t) && FreshIds(dst, t, ids, |b.docs|)
    requires c.docs ==
        DocsAfter(dst.docs[SeedId(t) := SeedRow(rt, t, b.meta.value.description)], t, b.docs, ids, |b.docs|)
    ensures DocsMatch(src, d, c, t, DocMap(b.docs, ids, |b.docs|)) <==> "" !in UserDocs(src, d)
  {
    hide SeedRow, OneToOne, NewDocRow, DocsAfter, DocMap, IsExport, TargetEmpty, SameDoc, IsSystem;
    var docMap := DocMap(b.docs, ids, |b.docs|);
    DocMapFacts(install, src, dst, d, b, t, ids);
    if "" !in UserDocs(src, d) {
      ImportedUserDocs(rt, install, src, dst, d, b, t, ids, c);
      assert docMap.Keys == UserDocs(src, d);
      forall id | id in docMap
        ensures docMap[id] in UserDocs(c, t) && docMap[id] in c.docs && SameDoc(src.docs[id], c.docs[docMap[id]])
      {
        DocCarried(install, src, dst, d, b, t, ids, c, id);
      }
      forall x | x in UserDocs(c, t) ensures x in docMap.Values {
        var i :| 0 <= i < |b.docs| && ids[i] == x;
        DocRenamed(install, src, d, b, ids, i);
      }
      assert docMap.Values == UserDocs(c, t);
    }
  }

  lemma DocRenamed(install: Install, db: Db, d: string, b: Bundle, ids: seq<string>, i: nat)
    requires IsExport(install, db, d, b) && i < |b.docs| <= |ids| && "" !in UserDocs(db, d)
    requires forall i, j :: 0 <= i < j < |b.docs| ==> ids[i] != ids[j]
    ensures ids[i] in DocMap(b.docs, ids, |b.docs|).Values
  {
    hide IsExport, DocMap, UserDocs;
    ExportedDocs(install, db, d, b);
    DocMapLookup(b.docs, ids, |b.docs|);
    assert DocMap(b.docs, ids, |b.docs|)[b.docs[i].value.id] == ids[i];
  }

  lemma DocCarried(
    install: Install, src: Db, dst: Db, d: string, b: Bundle, t: string, ids: seq<string>, c: Db, id: string)
    requires IsExport(install, src, d, b) && FreshIds(dst, t, ids, |b.docs|)
    requires forall i :: 0 <= i < |b.docs| ==>
        b.docs[i].Some? && ids[i] in c.docs && c.docs[ids[i]] == NewDocRow(t, b.docs[i].value)
    requires UserDocs(c, t) == set i | 0 <= i < |b.docs| :: ids[i]
    requires id in DocMap(b.docs, ids, |b.docs|)
    ensures
      var x := DocMap(b.docs, ids, |b.docs|)[id];
      id in UserDocs(src, d) && x in UserDocs(c, t) && x in c.docs && SameDoc(src.docs[id], c.docs[x])
  {
    hide NewDocRow, DocMap, IsExport, IsSystem;
    ExportedDocs(install, src, d, b);
    DocMapLookup(b.docs, ids, |b.docs|);
    var i :| 0 <= i < |b.docs| && b.docs[i].value.id == id;
    ImportedDoc(t, b, i);
  }

  /** An imported entity row is a named one of the exported domain, under its new id. */
  lemma ImportedEntity(
    rt: Runtime, install: Install, src: Db, dst: Db, d: string, b: Bundle, t: string, c: Db, k: EntityKey)
    requires Lawful(rt) && SoundIn(rt, src, d) && IsExport(install, src, d, b) && TargetEmpty(dst, t)
    requires c.entities.Keys == EntitiesAfter(rt, dst.entities, t, b.entities, |b.entities|).entities.Keys
    requires forall k :: k in c.entities ==>
        c.entities[k].id == EntitiesAfter(rt, dst.entities, t, b.entities, |b.entities|).entities[k].id
    requires k in c.entities && k.domain == t
    ensures k.name != "" && EntityKey(d, k.typ, k.name) in src.entities
        && c.entities[k].id == EntityId(rt, t, k.typ, k.name)
  {
    hide EntityId, Upper, NewKey, NewId, GoodEntity, SoundIn, EntitiesAfter, IsExport;
    ExportedEntities(rt, install, src, d, b);
    ExportedAreConsistent(rt, install, src, d, b, t);
    EntitiesAfterLookup(rt, dst.entities, t, b.entities, |b.entities|);
    var i :| 0 <= i < |b.entities| && GoodEntity(b.entities[i]) && k == NewKey(t, b.entities[i].value);
  }

  lemma NotMatched(src: Db, d: string, c: Db, t: string, idMap: map<string, string>, k: EntityKey)
    requires k in src.entities && k.domain == d && k.(domain := t) !in c.entities
    ensures !EntitiesMatch(src, d, c, t, idMap)
  {
  }

  lemma EntitiesMatchIff(rt: Runtime, install: Install, src: Db, dst: Db, d: string, b: Bundle, t: string, c: Db)
    requires Lawful(rt) && SoundIn(rt, src, d) && IsExport(install, src, d, b) && TargetEmpty(dst, t)
    requires c.entities.Keys == EntitiesAfter(rt, dst.entities, t, b.entities, |b.entities|).entities.Keys
    requires forall k :: k in c.entities ==>
        c.entities[k].id == EntitiesAfter(rt, dst.entities, t, b.entities, |b.entities|).entities[k].id
    ensures EntitiesMatch(src, d, c, t, EntitiesAfter(rt, dst.entities, t, b.entities, |b.entities|).idMap)
            <==> forall k :: k in src.entities && k.domain == d ==> k.name != ""
  {
    hide EntityId, SoundIn, EntitiesAfter, IsExport, TargetEmpty, EntitiesMatch, Lawful;
    forall k | k in c.entities && k.domain == t
      ensures k.name != "" && EntityKey(d, k.typ, k.name) in src.entities
          && c.entities[k].id == EntityId(rt, t, k.typ, k.name)
    {
      ImportedEntity(rt, install, src, dst, d, b, t, c, k);
    }
    if forall k :: k in src.entities && k.domain == d ==> k.name != "" {
      EntitiesForward(rt, install, src, dst, d, b, t, c);
    } else {
      var k :| k in src.entities && k.domain == d && k.name == "";
      assert k.(domain := t) !in c.entities;
      NotMatched(src, d, c, t, EntitiesAfter(rt, dst.entities, t, b.entities, |b.entities|).idMap, k);
    }
  }

  lemma EntitiesForward(rt: Runtime, install: Install, src: Db, dst: Db, d: string, b: Bundle, t: string, c: Db)
    requires Lawful(rt) && SoundIn(rt, src, d) && IsExport(install, src, d, b) && TargetEmpty(dst, t)
    requires c.entities.Keys == EntitiesAfter(rt, dst.entities, t, b.entities, |b.entities|).entities.Keys
    requires forall k :: k in c.entities && k.domain == t ==>
      EntityKey(d, k.typ, k.name) in src.entities && c.entities[k].id == EntityId(rt, t, k.typ, k.name)
    requires forall k :: k in src.entities && k.domain == d ==> k.name != ""
    ensures EntitiesMatch(src, d, c, t, EntitiesAfter(rt, dst.entities, t, b.entities, |b.entities|).idMap)
  {
    hide EntityId, SoundIn, EntitiesAfter, IsExport, Lawful, TargetEmpty, OneToOne;
    forall k | k in src.entities && k.domain == d
      ensures Renames(rt, EntitiesAfter(rt, dst.entities, t, b.entities, |b.entities|), src, k, t)
    {
      EntityIsRenamed(rt, install, src, dst, d, b, t, k);
    }
    IdMapIsOntoAndOneToOne(rt, install, src, dst, d, b, t, c);
  }

  /** The import has a row for the entity and maps its id to the row's. */
  ghost predicate Renames(rt: Runtime, w: EntityWork, db: Db, k: EntityKey, t: string)
    requires k in db.entities
  {
    k.(domain := t) in w.entities && db.entities[k].id in w.idMap
      && w.idMap[db.entities[k].id] == EntityId(rt, t, k.typ, k.name)
  }

  lemma EntityIsRenamed(rt: Runtime, install: Install, src: Db, dst: Db, d: string, b: Bundle, t: string, k: EntityKey)
    requires Lawful(rt) && SoundIn(rt, src, d) && IsExport(install, src, d, b) && TargetEmpty(dst, t)
    requires k in src.entities && k.domain == d && k.name != ""
    ensures Renames(rt, EntitiesAfter(rt, dst.entities, t, b.entities, |b.entities|), src, k, t)
  {
    hide EntityId, Upper, NewKey, NewId, GoodEntity, SoundIn, EntitiesAfter, IsExport, Lawful;
    ExportedEntities(rt, install, src, d, b);
    ExportedAreConsistent(rt, install, src, d, b, t);
    EntitiesAfterLookup(rt, dst.entities, t, b.entities, |b.entities|);
    IdMapLookup(rt, dst.entities, t, b.entities, |b.entities|);
    var i :| 0 <= i < |b.entities| && b.entities[i].value.typ == k.typ && b.entities[i].value.name == k.name
      && b.entities[i].value.id == src.entities[k].id;
    assert GoodEntity(b.entities[i]);
  }

  /** Every id the import renames belongs to an entity of the exported domain. */
  lemma RenamedEntity(rt: Runtime, install: Install, src: Db, dst: Db, d: string, b: Bundle, t: string, id: string)
    returns (k: EntityKey)
    requires Lawful(rt) && SoundIn(rt, src, d) && IsExport(install, src, d, b)
    requires id in EntitiesAfter(rt, dst.entities, t, b.entities, |b.entities|).idMap
    ensures k in src.entities && k.domain == d && src.entities[k].id == id && id == EntityId(rt, d, k.typ, k.name)
        && k.typ in ENTITY_TYPES
    ensures k.name != ""
        && EntitiesAfter(rt, dst.entities, t, b.entities, |b.entities|).idMap[id] == EntityId(rt, t, k.typ, k.name)
  {
    hide EntityId, SoundIn, EntitiesAfter, GoodEntity, IsExport, Lawful, Consistent;
    ExportedEntities(rt, install, src, d, b);
    ExportedAreConsistent(rt, install, src, d, b, t);
    IdMapLookup(rt, dst.entities, t, b.entities, |b.entities|);
    assert GoodRowFor(b.entities, |b.entities|, id);
    var i :| 0 <= i < |b.entities| && GoodEntity(b.entities[i]) && b.entities[i].value.id == id;
    k := EntityKey(d, b.entities[i].value.typ, b.entities[i].value.name);
  }

  lemma IdMapIsOntoAndOneToOne(rt: Runtime, install: Install, src: Db, dst: Db, d: string, b: Bundle, t: string, c: Db)
    requires Lawful(rt) && SoundIn(rt, src, d) && IsExport(install, src, d, b)
    requires forall k :: k in c.entities && k.domain == t ==>
      EntityKey(d, k.typ, k.name) in src.entities && c.entities[k].id == EntityId(rt, t, k.typ, k.name)
    requires forall k :: k in src.entities && k.domain == d ==>
      && k.(domain := t) in c.entities
      && src.entities[k].id in EntitiesAfter(rt, dst.entities, t, b.entities, |b.entities|).idMap
      && EntitiesAfter(rt, dst.entities, t, b.entities, |b.entities|).idMap[src.entities[k].id] ==
            EntityId(rt, t, k.typ, k.name)
    ensures
      var m := EntitiesAfter(rt, dst.entities, t, b.entities, |b.entities|).idMap;
      m.Keys == EntityIds(src, d) && m.Values == EntityIds(c, t) && OneToOne(m)
  {
    hide EntityId, SoundIn, EntitiesAfter, IsExport, Lawful;
    var m := EntitiesAfter(rt, dst.entities, t, b.entities, |b.entities|).idMap;
    forall id | id in m ensures id in EntityIds(src, d) {
      var k := RenamedEntity(rt, install, src, dst, d, b, t, id);
    }
    forall x | x in EntityIds(c, t) ensures x in m.Values {
      var k :| k in c.entities && k.domain == t && c.entities[k].id == x;
      assert m[src.entities[EntityKey(d, k.typ, k.name)].id] == x;
    }
    forall id | id in m ensures m[id] in EntityIds(c, t) {
      var k := RenamedEntity(rt, install, src, dst, d, b, t, id);
      assert c.entities[k.(domain := t)].id == m[id];
    }
    forall x, y | x in m && y in m && m[x] == m[y] ensures x == y {
      var j := RenamedEntity(rt, install, src, dst, d, b, t, x);
      var k := RenamedEntity(rt, install, src, dst, d, b, t, y);
      IdParts(rt, t, j.typ, j.name, k.typ, k.name);
      IdParts(rt, d, j.typ, j.name, k.typ, k.name);
    }
  }

  ghost predicate AliasesAreNamed(db: Db, d: string) {
    forall k :: k in db.aliases && k.domain == d ==> k.alias != "" && db.aliases[k] != ""
  }

  lemma ExportedAliases(install: Install, db: Db, d: string, b: Bundle)
    requires IsExport(install, db, d, b)
    ensures
      var rows := b.meta.value.aliases;
      && (forall i :: 0 <= i < |rows| ==>
            AliasKey(d, rows[i].alias) in db.aliases && db.aliases[AliasKey(d, rows[i].alias)] == rows[i].canonical)
      && (forall i, j :: 0 <= i < j < |rows| ==> rows[i].alias != rows[j].alias)
      && (forall k :: k in db.aliases && k.domain == d ==>
            exists i :: 0 <= i < |rows| && rows[i] == BundleAlias(k.alias, db.aliases[k]))
  {
    var rows := b.meta.value.aliases;
    forall i | 0 <= i < |rows| ensures rows[i] in AliasRows(db, d) { assert rows[i] in rows; }
    forall k | k in db.aliases && k.domain == d
      ensures exists i :: 0 <= i < |rows| && rows[i] == BundleAlias(k.alias, db.aliases[k])
    {
      assert BundleAlias(k.alias, db.aliases[k]) in AliasRows(db, d);
      assert BundleAlias(k.alias, db.aliases[k]) in rows;
    }
  }

  lemma AliasesMatchIff(install: Install, src: Db, dst: Db, d: string, b: Bundle, t: string, c: Db)
    requires IsExport(install, src, d, b) && TargetEmpty(dst, t)
    requires c.aliases == AliasesAfter(dst.aliases, t, b.meta.value.aliases, |b.meta.value.aliases|).0
    ensures AliasesMatch(src, d, c, t) <==> AliasesAreNamed(src, d)
  {
    if AliasesAreNamed(src, d) {
      NamedAliasesMatch(install, src, dst, d, b, t, c);
    } else {
      UnnamedAliasIsLost(install, src, dst, d, b, t, c);
    }
  }

  lemma NamedAliasesMatch(install: Install, src: Db, dst: Db, d: string, b: Bundle, t: string, c: Db)
    requires IsExport(install, src, d, b) && TargetEmpty(dst, t) && AliasesAreNamed(src, d)
    requires c.aliases == AliasesAfter(dst.aliases, t, b.meta.value.aliases, |b.meta.value.aliases|).0
    ensures AliasesMatch(src, d, c, t)
  {
    assert b.meta.Some?;
    hide AliasesAfter, IsExport;
    var rows := b.meta.value.aliases;
    ExportedAliases(install, src, d, b);
    AliasesAfterLookup(dst.aliases, t, rows, |rows|);
    forall a: string | AliasKey(d, a) in src.aliases
      ensures AliasKey(t, a) in c.aliases && c.aliases[AliasKey(t, a)] == src.aliases[AliasKey(d, a)]
    {
      var k := AliasKey(d, a);
      var i :| 0 <= i < |rows| && rows[i] == BundleAlias(k.alias, src.aliases[k]);
      assert GoodAlias(rows[i]);
    }
    forall a: string | AliasKey(t, a) in c.aliases ensures AliasKey(d, a) in src.aliases {
      var i :| 0 <= i < |rows| && GoodAlias(rows[i]) && AliasKey(t, a) == AliasKey(t, rows[i].alias);
    }
  }

  lemma UnnamedAliasIsLost(install: Install, src: Db, dst: Db, d: string, b: Bundle, t: string, c: Db)
    requires IsExport(install, src, d, b) && TargetEmpty(dst, t) && !AliasesAreNamed(src, d)
    requires c.aliases == AliasesAfter(dst.aliases, t, b.meta.value.aliases, |b.meta.value.aliases|).0
    ensures !AliasesMatch(src, d, c, t)
  {
    assert b.meta.Some?;
    hide AliasesAfter, IsExport;
    var rows := b.meta.value.aliases;
    ExportedAliases(install, src, d, b);
    AliasesAfterLookup(dst.aliases, t, rows, |rows|);
    var k :| k in src.aliases && k.domain == d && !(k.alias != "" && src.aliases[k] != "");
    assert k == AliasKey(d, k.alias);
    forall i | 0 <= i < |rows| && GoodAlias(rows[i]) ensures AliasKey(t, rows[i].alias) != AliasKey(t, k.alias) {
      assert AliasKey(d, rows[i].alias) in src.aliases;
    }
  }

  /** New entity ids are never empty. */
  lemma IdMapNotEmpty(rt: Runtime, install: Install, src: Db, dst: Db, d: string, b: Bundle, t: string)
    requires Lawful(rt) && SoundIn(rt, src, d) && IsExport(install, src, d, b)
    ensures forall id :: id in EntitiesAfter(rt, dst.entities, t, b.entities, |b.entities|).idMap ==>
      EntitiesAfter(rt, dst.entities, t, b.entities, |b.entities|).idMap[id] != ""
  {
    hide SoundIn;
    hide EntitiesAfter;
    hide GoodEntity;
    hide NewId;
    hide EntityId;
    var m := EntitiesAfter(rt, dst.entities, t, b.entities, |b.entities|).idMap;
    ExportedEntities(rt, install, src, d, b);
    ExportedAreConsistent(rt, install, src, d, b, t);
    IdMapLookup(rt, dst.entities, t, b.entities, |b.entities|);
    forall id | id in m ensures m[id] != "" {
      assert GoodRowFor(b.entities, |b.entities|, id);
      var i :| 0 <= i < |b.entities| && GoodEntity(b.entities[i]) && b.entities[i].value.id == id;
      IdNotEmpty(rt, t, b.entities[i].value.typ, b.entities[i].value.name);
    }
  }

  ghost predicate MentionsOnUserDocs(db: Db, d: string) {
    forall m :: m in db.mentions && m.domain == d ==> m.doc in UserDocs(db, d)
  }

  lemma ExportedMentions(install: Install, db: Db, d: string, b: Bundle)
    requires IsExport(install, db, d, b)
    ensures forall i :: 0 <= i < |b.mentions| ==>
        b.mentions[i].Some? && Mention(d, b.mentions[i].value.doc, b.mentions[i].value.entity) in db.mentions
    ensures forall m :: m in db.mentions && m.domain == d && m.doc in UserDocs(db, d) ==>
      exists i :: 0 <= i < |b.mentions| && b.mentions[i] == Some(BundleMention(m.doc, m.entity))
  {
    var all := MentionRowsOn(db, d, UserDocs(db, d));
    forall i | 0 <= i < |b.mentions| ensures b.mentions[i] in all { assert b.mentions[i] in b.mentions; }
    forall m | m in db.mentions && m.domain == d && m.doc in UserDocs(db, d)
      ensures exists i :: 0 <= i < |b.mentions| && b.mentions[i] == Some(BundleMention(m.doc, m.entity))
    {
      assert Some(BundleMention(m.doc, m.entity)) in all;
      assert Some(BundleMention(m.doc, m.entity)) in b.mentions;
    }
  }

  lemma MentionsMatchIff(
    install: Install, src: Db, dst: Db, d: string, b: Bundle, t: string, docMap: map<string, string>,
    idMap: map<string, string>, c: Db)
    requires IsExport(install, src, d, b) && TargetEmpty(dst, t)
    requires docMap.Keys == UserDocs(src, d) && forall x :: x in docMap ==> docMap[x] != ""
    requires forall x :: x in idMap ==> idMap[x] != ""
    requires forall m :: m in src.mentions && m.domain == d ==> m.entity in idMap
    requires c.mentions == MentionsAfter(dst.mentions, t, docMap, idMap, b.mentions, |b.mentions|).0
    ensures MentionsMatch(src, d, c, t, docMap, idMap) <==> MentionsOnUserDocs(src, d)
  {
    hide MentionsAfter, IsExport, UserDocs;
    if MentionsOnUserDocs(src, d) {
      forall m | m in src.mentions && m.domain == d
        ensures exists q :: q in c.mentions && MentionCopy(m, q, t, docMap, idMap)
      {
        MentionCarried(install, src, dst, d, b, t, docMap, idMap, c, m);
      }
      forall q | q in c.mentions && q.domain == t
        ensures exists m :: m in src.mentions && m.domain == d && MentionCopy(m, q, t, docMap, idMap)
      {
        MentionComesFrom(install, src, dst, d, b, t, docMap, idMap, c, q);
      }
    }
  }

  lemma MentionCarried(
    install: Install, src: Db, dst: Db, d: string, b: Bundle, t: string, docMap: map<string, string>,
    idMap: map<string, string>, c: Db, m: Mention)
    requires IsExport(install, src, d, b)
    requires c.mentions == MentionsAfter(dst.mentions, t, docMap, idMap, b.mentions, |b.mentions|).0
    requires m in src.mentions && m.domain == d && m.doc in UserDocs(src, d)
    requires m.doc in docMap && docMap[m.doc] != "" && m.entity in idMap && idMap[m.entity] != ""
    ensures exists q :: q in c.mentions && MentionCopy(m, q, t, docMap, idMap)
  {
    hide MentionsAfter, IsExport, UserDocs;
    ExportedMentions(install, src, d, b);
    MentionsAfterLookup(dst.mentions, t, docMap, idMap, b.mentions, |b.mentions|);
    var i :| 0 <= i < |b.mentions| && b.mentions[i] == Some(BundleMention(m.doc, m.entity));
    var q := Mention(t, docMap[m.doc], idMap[m.entity]);
    assert MapMention(t, docMap, idMap, b.mentions[i]) == Some(q);
    assert q in c.mentions && MentionCopy(m, q, t, docMap, idMap);
  }

  lemma MentionComesFrom(
    install: Install, src: Db, dst: Db, d: string, b: Bundle, t: string, docMap: map<string, string>,
    idMap: map<string, string>, c: Db, q: Mention)
    requires IsExport(install, src, d, b) && TargetEmpty(dst, t)
    requires c.mentions == MentionsAfter(dst.mentions, t, docMap, idMap, b.mentions, |b.mentions|).0
    requires q in c.mentions && q.domain == t
    ensures exists m :: m in src.mentions && m.domain == d && MentionCopy(m, q, t, docMap, idMap)
  {
    hide MentionsAfter, IsExport, UserDocs;
    ExportedMentions(install, src, d, b);
    MentionsAfterLookup(dst.mentions, t, docMap, idMap, b.mentions, |b.mentions|);
    var i :| 0 <= i < |b.mentions| && MapMention(t, docMap, idMap, b.mentions[i]) == Some(q);
    var m := Mention(d, b.mentions[i].value.doc, b.mentions[i].value.entity);
    assert m in src.mentions && MentionCopy(m, q, t, docMap, idMap);
  }

  ghost predicate RelationsStand(db: Db, d: string) {
    forall e :: e in db.edges && e.domain == d ==> e.relation != "" && ImportRelation(e.relation) == e.relation
  }

  lemma ExportedEdges(install: Install, db: Db, d: string, b: Bundle)
    requires IsExport(install, db, d, b)
    ensures forall i :: 0 <= i < |b.edges| ==>
      b.edges[i].Some? && EdgeKey(d, b.edges[i].value.src, b.edges[i].value.dst, b.edges[i].value.relation) in db.edges
    ensures forall e :: e in db.edges && e.domain == d ==>
      exists i :: 0 <= i < |b.edges| && b.edges[i].Some?
        && EdgeKey(d, b.edges[i].value.src, b.edges[i].value.dst, b.edges[i].value.relation) == e
  {
    forall i | 0 <= i < |b.edges| ensures b.edges[i] in EdgeRows(db, d) { assert b.edges[i] in b.edges; }
    forall e | e in db.edges && e.domain == d
      ensures exists i ::
        0 <= i < |b.edges| && b.edges[i].Some? &&
        EdgeKey(d, b.edges[i].value.src, b.edges[i].value.dst, b.edges[i].value.relation) == e
    {
      var row := Some(BundleEdge(e.src, e.dst, e.relation, db.edges[e].weight, db.edges[e].evidence));
      assert row in EdgeRows(db, d);
      assert row in b.edges;
      var i :| 0 <= i < |b.edges| && b.edges[i] == row;
      assert EdgeKey(d, b.edges[i].value.src, b.edges[i].value.dst, b.edges[i].value.relation) == e;
    }
  }

  lemma EdgesMatchIff(
    install: Install, src: Db, dst: Db, d: string, b: Bundle, t: string, docMap: map<string, string>,
    idMap: map<string, string>, c: Db)
    requires IsExport(install, src, d, b) && TargetEmpty(dst, t)
    requires forall x :: x in idMap ==> idMap[x] != ""
    requires forall e :: e in src.edges && e.domain == d ==> e.src in idMap && e.dst in idMap
    requires c.edges == EdgesAfter(dst.edges, t, docMap, idMap, b.edges, |b.edges|).edges
    ensures EdgesMatch(src, d, c, t, idMap) <==> RelationsStand(src, d)
  {
    hide EdgesAfter, ImportRelation, IsExport;
    if RelationsStand(src, d) {
      forall e | e in src.edges && e.domain == d ensures exists g :: g in c.edges && EdgeCopy(e, g, t, idMap) {
        EdgeCarried(install, src, dst, d, b, t, docMap, idMap, c, e);
      }
      forall g | g in c.edges && g.domain == t
        ensures exists e :: e in src.edges && e.domain == d && EdgeCopy(e, g, t, idMap)
      {
        EdgeComesFrom(install, src, dst, d, b, t, docMap, idMap, c, g);
      }
    } else {
      forall g | g in c.edges && g.domain == t ensures g.relation != "" && ImportRelation(g.relation) == g.relation {
        EdgeImported(dst, b, t, docMap, idMap, c, g);
      }
    }
  }

  lemma EdgeCarried(
    install: Install, src: Db, dst: Db, d: string, b: Bundle, t: string, docMap: map<string, string>,
    idMap: map<string, string>, c: Db, e: EdgeKey)
    requires IsExport(install, src, d, b)
    requires c.edges == EdgesAfter(dst.edges, t, docMap, idMap, b.edges, |b.edges|).edges
    requires e in src.edges && e.domain == d && e.src in idMap && e.dst in idMap && idMap[e.src] != ""
        && idMap[e.dst] != ""
    requires e.relation != "" && ImportRelation(e.relation) == e.relation
    ensures exists g :: g in c.edges && EdgeCopy(e, g, t, idMap)
  {
    hide EdgesAfter, ImportRelation, IsExport;
    ExportedEdges(install, src, d, b);
    EdgesAfterLookup(dst.edges, t, docMap, idMap, b.edges, |b.edges|);
    var i :| 0 <= i < |b.edges| && b.edges[i].Some?
      && EdgeKey(d, b.edges[i].value.src, b.edges[i].value.dst, b.edges[i].value.relation) == e;
    var g := EdgeKey(t, idMap[e.src], idMap[e.dst], e.relation);
    assert MapEdge(t, idMap, b.edges[i]) == Some(g);
    assert g in c.edges && EdgeCopy(e, g, t, idMap);
  }

  lemma EdgeComesFrom(
    install: Install, src: Db, dst: Db, d: string, b: Bundle, t: string, docMap: map<string, string>,
    idMap: map<string, string>, c: Db, g: EdgeKey)
    requires IsExport(install, src, d, b) && TargetEmpty(dst, t) && RelationsStand(src, d)
    requires c.edges == EdgesAfter(dst.edges, t, docMap, idMap, b.edges, |b.edges|).edges
    requires g in c.edges && g.domain == t
    ensures exists e :: e in src.edges && e.domain == d && EdgeCopy(e, g, t, idMap)
  {
    hide EdgesAfter, ImportRelation, IsExport;
    ExportedEdges(install, src, d, b);
    EdgesAfterLookup(dst.edges, t, docMap, idMap, b.edges, |b.edges|);
    var i :| 0 <= i < |b.edges| && MapEdge(t, idMap, b.edges[i]) == Some(g);
    var e := EdgeKey(d, b.edges[i].value.src, b.edges[i].value.dst, b.edges[i].value.relation);
    assert e in src.edges && EdgeCopy(e, g, t, idMap);
  }

  /** Import stores only relations it would store again. */
  lemma EdgeImported(
    db: Db, b: Bundle, t: string, docMap: map<string, string>, idMap: map<string, string>, c: Db, g: EdgeKey)
    requires TargetEmpty(db, t)
    requires c.edges == EdgesAfter(db.edges, t, docMap, idMap, b.edges, |b.edges|).edges
    requires g in c.edges && g.domain == t
    ensures g.relation != "" && ImportRelation(g.relation) == g.relation
  {
    hide EdgesAfter, ImportRelation;
    EdgesAfterLookup(db.edges, t, docMap, idMap, b.edges, |b.edges|);
    var i :| 0 <= i < |b.edges| && MapEdge(t, idMap, b.edges[i]) == Some(g);
    ImportRelationIdempotent(b.edges[i].value.relation);
  }

  lemma CountsAreExact(rt: Runtime, db: Db, t: string, b: Bundle, c: Db, docMap: map<string, string>)
    requires TargetEmpty(db, t)
    requires
      var w := EntitiesAfter(rt, db.entities, t, b.entities, |b.entities|);
      && c.mentions == MentionsAfter(db.mentions, t, docMap, w.idMap, b.mentions, |b.mentions|).0
      && c.entities == if b.mentions == [] then w.entities else RecomputeCounts(w.entities, c.mentions, t)
    ensures CountsExactIn(c, t)
  {
    hide EntitiesAfter;
    hide EntityId;
    hide GoodEntity;
    var w := EntitiesAfter(rt, db.entities, t, b.entities, |b.entities|);
    if b.mentions == [] {
      EntitiesAfterLookup(rt, db.entities, t, b.entities, |b.entities|);
      assert c.mentions == db.mentions;
      forall k | k in c.entities && k.domain == t
        ensures c.entities[k].mentions == Rows(c.mentions, t, c.entities[k].id)
      {
        assert MentionsOf(c.mentions, t, c.entities[k].id) == {};
      }
    }
  }

  // ---------- The theorem ----------

  /** A domain exported from one store and imported into an empty domain of another (or of the same
      one, under another name), with fresh document ids and one embedding model. */
  ghost predicate Setting(
    rt: Runtime, install: Install, src: Db, dst: Db, d: string, b: Bundle, override: string, ids: seq<string>,
    t: string) {
    && Lawful(rt) && SoundIn(rt, src, d)
    && IsExport(install, src, d, b)
    && t == TargetOf(override, b.manifest.value) && ValidDomain(t)
    && TargetEmpty(dst, t) && FreshIds(dst, t, ids, |b.docs|)
    && (forall id :: id in UserDocs(src, d) ==> |src.docs[id].embedding| == install.dim)
  }

  /** The maps that the import of `b` uses. */
  ghost function DocRenaming(b: Bundle, ids: seq<string>): map<string, string>
    requires |b.docs| <= |ids|
  {
    DocMap(b.docs, ids, |b.docs|)
  }

  ghost function EntityRenaming(rt: Runtime, db: Db, b: Bundle, t: string): map<string, string> {
    EntitiesAfter(rt, db.entities, t, b.entities, |b.entities|).idMap
  }

  lemma ImportSucceeds(
    rt: Runtime, install: Install, src: Db, dst: Db, d: string, b: Bundle, override: string, ids: seq<string>,
    t: string)
    requires Setting(rt, install, src, dst, d, b, override, ids, t)
    ensures
      var (r, c) := ImportOutcome(rt, install, dst, b, override, ids);
      var w := EntitiesAfter(rt, dst.entities, t, b.entities, |b.entities|);
      && r.Imported? && r.docs == |b.docs| && b.meta.Some?
      && c.docs == DocsAfter(dst.docs[SeedId(t) := SeedRow(rt, t, b.meta.value.description)], t, b.docs, ids, |b.docs|)
      && c.aliases == AliasesAfter(dst.aliases, t, b.meta.value.aliases, |b.meta.value.aliases|).0
      && c.mentions == MentionsAfter(dst.mentions, t, DocRenaming(b, ids), w.idMap, b.mentions, |b.mentions|).0
      && c.entities == (if b.mentions == [] then w.entities else RecomputeCounts(w.entities, c.mentions, t))
      && c.edges == EdgesAfter(dst.edges, t, DocRenaming(b, ids), w.idMap, b.edges, |b.edges|).edges
  {
    hide SoundIn;
    hide ValidDomain;
    hide TargetOf;
    hide DocsAfter;
    hide AliasesAfter;
    hide EntitiesAfter;
    hide MentionsAfter;
    hide EdgesAfter;
    hide SeedRow;
    ExportedDocs(install, src, d, b);
    assert FirstBad(install.dim, b.docs) == |b.docs|;
    assert AliasRows(dst, t) == {};
    assert Check(install, dst, b, override) == None;
  }

  /** Every mention and every edge end of the domain has a new entity id, when no name is empty. */
  lemma EverythingIsRenamed(rt: Runtime, db: Db, d: string, idMap: map<string, string>)
    requires SoundIn(rt, db, d) && idMap.Keys == EntityIds(db, d)
    ensures forall m :: m in db.mentions && m.domain == d ==> m.entity in idMap
    ensures forall e :: e in db.edges && e.domain == d ==> e.src in idMap && e.dst in idMap
  {
    hide EntityId;
    hide Less;
    forall m | m in db.mentions && m.domain == d ensures m.entity in idMap {
      assert HasRow(db, m.domain, m.entity);
    }
    forall e | e in db.edges && e.domain == d ensures e.src in idMap && e.dst in idMap {
      assert EdgeOk(db, e);
      var m :| m in db.mentions && m.domain == e.domain && m.entity == e.src;
      var n :| n in db.mentions && n.domain == e.domain && n.entity == e.dst;
      assert HasRow(db, m.domain, m.entity) && HasRow(db, n.domain, n.entity);
    }
  }

  /** MAIN: exporting a sound domain and importing the bundle into an empty domain always succeeds,
      and the import's renaming of documents and entities makes the target an exact copy (texts,
      embeddings, metadata, aliases, entities, mentions, edges, exact counts) if and only if the
      domain was exportable. */
  lemma ImportFaithfulIff(
    rt: Runtime, install: Install, src: Db, dst: Db, d: string, b: Bundle, override: string, ids: seq<string>,
    t: string)
    requires Setting(rt, install, src, dst, d, b, override, ids, t)
    ensures ImportOutcome(rt, install, dst, b, override, ids).0.Imported?
    ensures Faithful(src, d, ImportOutcome(rt, install, dst, b, override, ids).1, t, DocRenaming(b, ids),
        EntityRenaming(rt, dst, b, t))
            <==> Exportable(src, d)
  {
    hide SoundIn;
    hide Lawful;
    hide ImportOutcome;
    hide EntitiesAfter;
    hide DocsMatch;
    hide EntitiesMatch;
    hide MentionsMatch;
    hide EdgesMatch;
    hide AliasesMatch;
    hide CountsExactIn;
    hide ImportRelation;
    hide IsExport;
    hide ValidDomain;
    hide TargetOf;
    var c := ImportOutcome(rt, install, dst, b, override, ids).1;
    var docMap, idMap := DocRenaming(b, ids), EntityRenaming(rt, dst, b, t);
    ImportSucceeds(rt, install, src, dst, d, b, override, ids, t);
    DocsMatchIff(rt, install, src, dst, d, b, t, ids, c);
    EntitiesMatchIff(rt, install, src, dst, d, b, t, c);
    AliasesMatchIff(install, src, dst, d, b, t, c);
    CountsAreExact(rt, dst, t, b, c, docMap);
    DocMapFacts(install, src, dst, d, b, t, ids);
    if DocsMatch(src, d, c, t, docMap) && EntitiesMatch(src, d, c, t, idMap) {
      GraphMatchIff(rt, install, src, dst, d, b, t, docMap, idMap, c);
    }
  }

  /** With documents and entities matched, what is left are the mentions and the edges. */
  lemma GraphMatchIff(
    rt: Runtime, install: Install, src: Db, dst: Db, d: string, b: Bundle, t: string, docMap: map<string, string>,
    idMap: map<string, string>, c: Db)
    requires Lawful(rt) && SoundIn(rt, src, d) && IsExport(install, src, d, b) && TargetEmpty(dst, t)
    requires DocsMatch(src, d, c, t, docMap) && EntitiesMatch(src, d, c, t, idMap)
    requires forall x :: x in docMap ==> docMap[x] != ""
    requires idMap == EntityRenaming(rt, dst, b, t)
    requires c.mentions == MentionsAfter(dst.mentions, t, docMap, idMap, b.mentions, |b.mentions|).0
    requires c.edges == EdgesAfter(dst.edges, t, docMap, idMap, b.edges, |b.edges|).edges
    ensures MentionsMatch(src, d, c, t, docMap, idMap) <==> MentionsOnUserDocs(src, d)
    ensures EdgesMatch(src, d, c, t, idMap) <==> RelationsStand(src, d)
  {
    hide SoundIn;
    hide Lawful;
    hide EntitiesAfter;
    hide MentionsMatch;
    hide EdgesMatch;
    IdMapNotEmpty(rt, install, src, dst, d, b, t);
    EverythingIsRenamed(rt, src, d, idMap);
    MentionsMatchIff(install, src, dst, d, b, t, docMap, idMap, c);
    EdgesMatchIff(install, src, dst, d, b, t, docMap, idMap, c);
  }

  ghost predicate DocsSameIn(db: Db, c: Db, other: string) {
    && (forall id :: id in db.docs && db.docs[id].domain == other ==> id in c.docs && c.docs[id] == db.docs[id])
    && (forall id :: id in c.docs && c.docs[id].domain == other ==> id in db.docs && c.docs[id] == db.docs[id])
  }

  ghost predicate AliasesSameIn(db: Db, c: Db, other: string) {
    forall k: AliasKey :: k.domain == other ==>
      (k in db.aliases <==> k in c.aliases) && (k in db.aliases ==> db.aliases[k] == c.aliases[k])
  }

  ghost predicate EntitiesSameIn(db: Db, c: Db, other: string) {
    forall k: EntityKey :: k.domain == other ==>
      (k in db.entities <==> k in c.entities) && (k in db.entities ==> db.entities[k] == c.entities[k])
  }

  ghost predicate MentionsSameIn(db: Db, c: Db, other: string) {
    forall m: Mention :: m.domain == other ==> (m in db.mentions <==> m in c.mentions)
  }

  ghost predicate EdgesSameIn(db: Db, c: Db, other: string) {
    forall e: EdgeKey :: e.domain == other ==>
      (e in db.edges <==> e in c.edges) && (e in db.edges ==> db.edges[e] == c.edges[e])
  }

  lemma SameInParts(db: Db, c: Db, other: string)
    requires DocsSameIn(db, c, other) && AliasesSameIn(db, c, other) && EntitiesSameIn(db, c, other)
    requires MentionsSameIn(db, c, other) && EdgesSameIn(db, c, other)
    ensures SameIn(db, c, other)
  {
  }

  /** Documents of `other` are not taken over, as none of the new ids is theirs. */
  lemma {:induction false} DocsElsewhere(
    docs: map<string, DocRow>, t: string, rows: seq<Option<BundleDoc>>, ids: seq<string>, k: nat, other: string)
    requires k <= |rows| <= |ids| && other != t
    requires forall i :: 0 <= i < |rows| && ids[i] in docs ==> docs[ids[i]].domain != other
    ensures
      var after := DocsAfter(docs, t, rows, ids, k);
      && (forall id :: id in docs && docs[id].domain == other ==> id in after && after[id] == docs[id])
      && (forall id :: id in after && after[id].domain == other ==> id in docs && after[id] == docs[id])
    decreases k
  {
    if k > 0 {
      DocsElsewhere(docs, t, rows, ids, k - 1, other);
    }
  }

  lemma {:induction false} AliasesElsewhere(aliases: map<AliasKey, string>, t: string, rows: seq<BundleAlias>, k: nat)
    requires k <= |rows|
    ensures
      var after := AliasesAfter(aliases, t, rows, k).0;
      forall key: AliasKey :: key.domain != t ==>
        (key in after <==> key in aliases) && (key in aliases ==> after[key] == aliases[key])
    decreases k
  {
    if k > 0 {
      AliasesElsewhere(aliases, t, rows, k - 1);
    }
  }

  lemma {:induction false} EntitiesElsewhere(
    rt: Runtime, entities: Entities, t: string, rows: seq<Option<BundleEntity>>, k: nat)
    requires k <= |rows|
    ensures
      var after := EntitiesAfter(rt, entities, t, rows, k).entities;
      forall key: EntityKey :: key.domain != t ==>
        (key in after <==> key in entities) && (key in entities ==> after[key] == entities[key])
    decreases k
  {
    hide NewId, GoodEntity, Upper;
    if k > 0 {
      EntitiesElsewhere(rt, entities, t, rows, k - 1);
    }
  }

  /** No document of `other` has an id the import writes under. */
  ghost predicate TakesNoneOf(db: Db, b: Bundle, t: string, ids: seq<string>, other: string)
    requires |b.docs| <= |ids|
  {
    && (SeedId(t) in db.docs ==> db.docs[SeedId(t)].domain != other)
    && (forall i :: 0 <= i < |b.docs| && ids[i] in db.docs ==> db.docs[ids[i]].domain != other)
  }

  lemma WrittenElsewhere(db: Db, b: Bundle, t: string, seed: DocRow, ids: seq<string>, k: nat, c: Db, other: string)
    requires other != t && seed.domain == t && k <= |b.docs| <= |ids| && TakesNoneOf(db, b, t, ids, other)
    requires c.docs == DocsAfter(db.docs[SeedId(t) := seed], t, b.docs, ids, k)
    ensures DocsSameIn(db, c, other)
  {
    hide DocsAfter, SeedId;
    DocsElsewhere(db.docs[SeedId(t) := seed], t, b.docs, ids, k, other);
  }

  /** MAIN: importing any bundle, faithful or not, refused or not, leaves every other domain as it was. */
  lemma ImportTouchesOnlyTarget(
    rt: Runtime, install: Install, db: Db, b: Bundle, override: string, ids: seq<string>, other: string)
    requires |b.docs| <= |ids|
    requires b.manifest.Some? ==>
      other != TargetOf(override, b.manifest.value)
        && TakesNoneOf(db, b, TargetOf(override, b.manifest.value), ids, other)
    ensures SameIn(db, ImportOutcome(rt, install, db, b, override, ids).1, other)
  {
    hide TargetOf, Check, DocsAfter, EntitiesAfter, MentionsAfter, EdgesAfter, AliasesAfter, SeedRow, DocMap, SameIn,
      TakesNoneOf, RecomputeCounts, RemoveDomain;
    var c := ImportOutcome(rt, install, db, b, override, ids).1;
    if Check(install, db, b, override).Some? {
      SameInItself(db, other);
    } else {
      CheckedParts(install, db, b, override);
      var t := TargetOf(override, b.manifest.value);
      var seed := SeedRow(rt, t, b.meta.value.description);
      SeedIsOf(rt, t, b.meta.value.description);
      var bad := FirstBad(install.dim, b.docs);
      if bad < |b.docs| {
        var k := bad - bad % BATCH;
        var written := db.(docs := DocsAfter(db.docs[SeedId(t) := seed], t, b.docs, ids, k));
        WrittenElsewhere(db, b, t, seed, ids, k, written, other);
        RolledBackElsewhere(db, written, t, other);
      } else {
        WrittenElsewhere(db, b, t, seed, ids, |b.docs|, c, other);
        GraphElsewhere(rt, db, b, t, ids, c, other);
      }
    }
  }

  lemma SeedIsOf(rt: Runtime, t: string, description: string)
    ensures SeedRow(rt, t, description).domain == t
  {
  }

  lemma RolledBackElsewhere(db: Db, written: Db, t: string, other: string)
    requires other != t && DocsSameIn(db, written, other) && written == db.(docs := written.docs)
    ensures SameIn(db, RemoveDomain(written, t), other)
  {
  }

  lemma GraphElsewhere(rt: Runtime, db: Db, b: Bundle, t: string, ids: seq<string>, c: Db, other: string)
    requires other != t && |b.docs| <= |ids| && b.meta.Some? && DocsSameIn(db, c, other)
    requires
      var w := EntitiesAfter(rt, db.entities, t, b.entities, |b.entities|);
      && c.aliases == AliasesAfter(db.aliases, t, b.meta.value.aliases, |b.meta.value.aliases|).0
      && c.mentions == MentionsAfter(db.mentions, t, DocMap(b.docs, ids, |b.docs|), w.idMap, b.mentions, |b.mentions|).0
      && c.entities == (if b.mentions == [] then w.entities else RecomputeCounts(w.entities, c.mentions, t))
      && c.edges == EdgesAfter(db.edges, t, DocMap(b.docs, ids, |b.docs|), w.idMap, b.edges, |b.edges|).edges
    ensures SameIn(db, c, other)
  {
    hide EntitiesAfter, MentionsAfter, EdgesAfter, AliasesAfter, DocMap, SameIn, ImportRelation;
    var w := EntitiesAfter(rt, db.entities, t, b.entities, |b.entities|);
    AliasesElsewhere(db.aliases, t, b.meta.value.aliases, |b.meta.value.aliases|);
    EntitiesElsewhere(rt, db.entities, t, b.entities, |b.entities|);
    MentionsAfterLookup(db.mentions, t, DocMap(b.docs, ids, |b.docs|), w.idMap, b.mentions, |b.mentions|);
    EdgesAfterLookup(db.edges, t, DocMap(b.docs, ids, |b.docs|), w.idMap, b.edges, |b.edges|);
    SameInParts(db, c, other);
  }

  lemma {:induction false} FlushedDocs(
    docs: map<string, DocRow>, t: string, rows: seq<Option<BundleDoc>>, ids: seq<string>, k: nat)
    requires k <= |rows| <= |ids|
    ensures forall id ::
      id in DocsAfter(docs, t, rows, ids, k) &&
      !(id in docs && DocsAfter(docs, t, rows, ids, k)[id] == docs[id]) ==>
        DocsAfter(docs, t, rows, ids, k)[id].domain == t
    ensures forall id :: id in docs && (forall i :: 0 <= i < k ==> ids[i] != id) ==>
      id in DocsAfter(docs, t, rows, ids, k) && DocsAfter(docs, t, rows, ids, k)[id] == docs[id]
    decreases k
  {
    if k > 0 {
      FlushedDocs(docs, t, rows, ids, k - 1);
    }
  }

  /** The target has no graph rows; the import checks its documents and aliases only. */
  ghost predicate NoGraph(db: Db, t: string) {
    && (forall k :: k in db.entities ==> k.domain != t)
    && (forall m :: m in db.mentions ==> m.domain != t)
    && (forall e :: e in db.edges ==> e.domain != t)
  }

  /** MAIN: an import that is refused, whatever the bundle, leaves the store as it was, the batches
      written before an unreadable row included, if and only if it was refused before anything was
      written or the target had no graph rows that the rollback would take along. */
  lemma RefusedImportChangesNothingIff(
    rt: Runtime, install: Install, db: Db, b: Bundle, override: string, ids: seq<string>)
    requires |b.docs| <= |ids| && ImportOutcome(rt, install, db, b, override, ids).0.Refused?
    requires b.manifest.Some? ==> FreshIds(db, TargetOf(override, b.manifest.value), ids, |b.docs|)
    ensures ImportOutcome(rt, install, db, b, override, ids).1 == db
            <==> Check(install, db, b, override).Some? || NoGraph(db, TargetOf(override, b.manifest.value))
  {
    hide TargetOf, Check, DocsAfter, EntitiesAfter, MentionsAfter, EdgesAfter, AliasesAfter, SeedRow, DocMap, NoGraph,
      RemoveDomain;
    if Check(install, db, b, override).None? {
      CheckedParts(install, db, b, override);
      CheckedTarget(install, db, b, override);
      var t := TargetOf(override, b.manifest.value);
      var bad := FirstBad(install.dim, b.docs);
      RolledBackIff(rt, db, b, t, ids, bad - bad % BATCH);
    }
  }

  lemma CheckedTarget(install: Install, db: Db, b: Bundle, override: string)
    requires Check(install, db, b, override).None?
    ensures b.manifest.Some? && DocsOf(db, TargetOf(override, b.manifest.value)) == {}
    ensures forall k :: k in db.aliases ==> k.domain != TargetOf(override, b.manifest.value)
  {
    hide ValidDomain, TargetOf;
    var t := TargetOf(override, b.manifest.value);
    forall k | k in db.aliases ensures k.domain != t {
      assert BundleAlias(k.alias, db.aliases[k]) in AliasRows(db, k.domain);
    }
  }

  lemma CheckedParts(install: Install, db: Db, b: Bundle, override: string)
    requires Check(install, db, b, override).None?
    ensures b.manifest.Some? && b.meta.Some?
  {
    hide ValidDomain, TargetOf;
  }

  /** Deleting the target domain undoes the seed and any number of written rows, and takes the
      graph rows of the domain along. */
  lemma RolledBackIff(rt: Runtime, db: Db, b: Bundle, t: string, ids: seq<string>, k: nat)
    requires b.meta.Some? && k <= |b.docs| <= |ids| && FreshIds(db, t, ids, |b.docs|)
    requires DocsOf(db, t) == {} && forall a :: a in db.aliases ==> a.domain != t
    ensures
      var seeded := PutDoc(db, SeedId(t), SeedRow(rt, t, b.meta.value.description));
      RemoveDomain(seeded.(docs := DocsAfter(seeded.docs, t, b.docs, ids, k)), t) == db <==> NoGraph(db, t)
  {
    hide DocsAfter;
    var seed := SeedRow(rt, t, b.meta.value.description);
    var flushed := DocsAfter(db.docs[SeedId(t) := seed], t, b.docs, ids, k);
    FlushedDocs(db.docs[SeedId(t) := seed], t, b.docs, ids, k);
    forall id | id in db.docs ensures id in flushed && flushed[id] == db.docs[id] && flushed[id].domain != t {
      assert forall i :: 0 <= i < k ==> ids[i] != id;
      assert id in DocsOf(db, db.docs[id].domain);
    }
    assert RemoveDomain(db.(docs := flushed), t).docs == db.docs;
    GraphGoneIff(db, flushed, t);
  }

  lemma GraphGoneIff(db: Db, flushed: map<string, DocRow>, t: string)
    requires forall a :: a in db.aliases ==> a.domain != t
    ensures
      var c := RemoveDomain(db.(docs := flushed), t);
      c == db.(docs := c.docs) <==> NoGraph(db, t)
  {
    var c := RemoveDomain(db.(docs := flushed), t);
    assert c.aliases == db.aliases;
    assert c.entities == db.entities <==> forall k :: k in db.entities ==> k.domain != t by {
      if c.entities == db.entities { assert forall k :: k in db.entities ==> k in c.entities; }
    }
    assert c.mentions == db.mentions <==> forall m :: m in db.mentions ==> m.domain != t;
    assert c.edges == db.edges <==> forall e :: e in db.edges ==> e.domain != t by {
      if c.edges == db.edges { assert forall e :: e in db.edges ==> e in c.edges; }
    }
  }
}
