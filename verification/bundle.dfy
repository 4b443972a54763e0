/** Moving a domain: export to a bundle, import of a bundle under a new domain name with every
    document and entity renamed, and when the copy is faithful. */
module Bundle {
  import opened Options
  import opened Text
  import opened GraphStore
  import opened GraphIntegrity

  // ---------- Bundles ----------

  datatype Manifest = Manifest(format: string, version: int, domain: string, model: string, dim: int)
  datatype BundleAlias = BundleAlias(alias: string, canonical: string)
  datatype DomainMeta = DomainMeta(description: string, aliases: seq<BundleAlias>)
  datatype BundleDoc = BundleDoc(id: string, text: string, metadata: map<string, string>, embedding: seq<real>)
  datatype BundleEntity = BundleEntity(id: string, name: string, typ: string, mentions: nat)
  datatype BundleMention = BundleMention(doc: string, entity: string)
  datatype BundleEdge = BundleEdge(src: string, dst: string, relation: string, weight: nat, evidence: Option<string>)

  /** The members of the archive; `None` stands for a missing or unreadable member or line. */
  datatype Bundle = Bundle(
    manifest: Option<Manifest>, meta: Option<DomainMeta>,
    docs: seq<Option<BundleDoc>>, entities: seq<Option<BundleEntity>>,
    mentions: seq<Option<BundleMention>>, edges: seq<Option<BundleEdge>>)

  /** The embedding model of an installation and its dimension. */
  datatype Install = Install(model: string, dim: nat)

  const BUNDLE_FORMAT := "ob2-domain-bundle"
  const BUNDLE_VERSION := 1
  const BATCH: nat := 256
  const SYSTEM := "_ob2_system"
  const ORIG_DOC_ID := "_ob2_orig_doc_id"

  function SeedId(domain: string): string {
    "_ob2_domain_" + domain
  }

  predicate IsSystem(metadata: map<string, string>) {
    SYSTEM in metadata && metadata[SYSTEM] != ""
  }

  function DocsOf(db: Db, domain: string): set<string> {
    set id | id in db.docs && db.docs[id].domain == domain
  }

  function UserDocs(db: Db, domain: string): set<string> {
    set id | id in db.docs && db.docs[id].domain == domain && !IsSystem(db.docs[id].metadata)
  }

  function Description(db: Db, domain: string): string {
    var id := SeedId(domain);
    if id in db.docs && db.docs[id].domain == domain && "description" in db.docs[id].metadata
    then db.docs[id].metadata["description"] else ""
  }

  /** `s` lists the members of `all`, each once, in some order. */
  ghost predicate Lists<T(!new)>(s: seq<T>, all: set<T>) {
    && (forall x :: x in s <==> x in all)
    && (forall i, j :: 0 <= i < j < |s| ==> s[i] != s[j])
  }

  function Elems<T>(s: seq<T>): set<T> {
    set x | x in s
  }

  // ---------- Export ----------

  function AliasRows(db: Db, domain: string): set<BundleAlias> {
    set k | k in db.aliases && k.domain == domain :: BundleAlias(k.alias, db.aliases[k])
  }

  function DocRows(db: Db, domain: string): set<Option<BundleDoc>> {
    set id | id in UserDocs(db, domain) ::
      Some(BundleDoc(id, db.docs[id].text, db.docs[id].metadata, db.docs[id].embedding))
  }

  function EntityRows(db: Db, domain: string): set<Option<BundleEntity>> {
    set k | k in db.entities && k.domain == domain ::
      Some(BundleEntity(db.entities[k].id, k.name, k.typ, db.entities[k].mentions))
  }

  function MentionRowsOn(db: Db, domain: string, docs: set<string>): set<Option<BundleMention>> {
    set m | m in db.mentions && m.domain == domain && m.doc in docs :: Some(BundleMention(m.doc, m.entity))
  }

  function EdgeRows(db: Db, domain: string): set<Option<BundleEdge>> {
    set e | e in db.edges && e.domain == domain ::
      Some(BundleEdge(e.src, e.dst, e.relation, db.edges[e].weight, db.edges[e].evidence))
  }

  ghost predicate IsExport(install: Install, db: Db, domain: string, b: Bundle) {
    && b.manifest == Some(Manifest(BUNDLE_FORMAT, BUNDLE_VERSION, domain, install.model, install.dim))
    && b.meta.Some? && b.meta.value.description == Description(db, domain)
    && Lists(b.meta.value.aliases, AliasRows(db, domain))
    && Lists(b.docs, DocRows(db, domain))
    && Lists(b.entities, EntityRows(db, domain))
    && Lists(b.mentions, MentionRowsOn(db, domain, UserDocs(db, domain)))
    && Lists(b.edges, EdgeRows(db, domain))
  }

  /** A query's rows, in whatever order it returns them. */
  method Listing<T(==, !new)>(all: set<T>) returns (s: seq<T>)
    ensures Lists(s, all)
  {
    s := [];
    var todo := all;
    while todo != {}
      invariant todo <= all && Lists(s, all - todo)
      decreases todo
    {
      var x :| x in todo;
      s := s + [x];
      todo := todo - {x};
    }
    assert all - todo == all;
  }

  /** `method_export_domain`, up to writing the archive. */
  method ExportDomain(store: Store, install: Install, domain: string) returns (b: Option<Bundle>)
    ensures b.None? <==> DocsOf(store.Tables(), domain) == {}
    ensures b.Some? ==> IsExport(install, store.Tables(), domain, b.value)
  {
    var db := Db(store.docs, store.aliases, store.entities, store.mentions, store.edges);
    if DocsOf(db, domain) == {} { return None; }
    var aliases := Listing(AliasRows(db, domain));
    var docs := Listing(DocRows(db, domain));
    var entities := Listing(EntityRows(db, domain));
    var mentions: seq<Option<BundleMention>> := [];
    var ids := Listing(UserDocs(db, domain));
    var i := 0;
    while i < |ids|
      invariant 0 <= i <= |ids|
      invariant Lists(mentions, MentionRowsOn(db, domain, Elems(ids[..i])))
    {
      var here := Listing(MentionRowsOn(db, domain, {ids[i]}));
      ghost var before := Elems(ids[..i]);
      assert Elems(ids[..i + 1]) == before + {ids[i]};
      assert ids[i] !in before;
      ListsConcat(mentions, here, db, domain, before, ids[i]);
      mentions := mentions + here;
      i := i + 1;
    }
    assert Elems(ids[..i]) == UserDocs(db, domain) by { assert ids[..i] == ids; }
    var edges := Listing(EdgeRows(db, domain));
    return Some(Bundle(
      Some(Manifest(BUNDLE_FORMAT, BUNDLE_VERSION, domain, install.model, install.dim)),
      Some(DomainMeta(Description(db, domain), aliases)), docs, entities, mentions, edges));
  }

  lemma ListsConcat(
    a: seq<Option<BundleMention>>, b: seq<Option<BundleMention>>, db: Db, domain: string, docs: set<string>,
    doc: string)
    requires Lists(a, MentionRowsOn(db, domain, docs)) && Lists(b, MentionRowsOn(db, domain, {doc})) && doc !in docs
    ensures Lists(a + b, MentionRowsOn(db, domain, docs + {doc}))
  {
    assert forall x :: x in a + b <==> x in a || x in b;
    assert forall x :: x in a ==> x.Some? && x.value.doc in docs;
    assert forall x :: x in b ==> x.Some? && x.value.doc == doc;
    assert MentionRowsOn(db, domain, docs + {doc}) ==
      MentionRowsOn(db, domain, docs) + MentionRowsOn(db, domain, {doc});
    forall i, j | 0 <= i < j < |a + b| ensures (a + b)[i] != (a + b)[j] {
      if i < |a| && j >= |a| {
        assert a[i] in a && b[j - |a|] in b;
      }
    }
  }

  // ---------- Import ----------

  datatype ImportError = BundleInvalid | UnsupportedVersion | ModelMismatch | DimMismatch | InvalidDomainName
    | DomainExists
  datatype ImportResult = Refused(error: ImportError)
    | Imported(docs: nat, aliases: nat, entities: nat, mentions: nat, edges: nat)

  predicate Slug(s: string) {
    s != "" && forall c :: c in s ==> 'a' <= c <= 'z' || '0' <= c <= '9' || c == '-'
  }

  /** `re.match(r"^[a-z0-9-]+$", s)`, where `$` also matches before a final line feed, and at most 64 long. */
  predicate ValidDomain(s: string) {
    |s| <= 64 && (Slug(s) || (s != "" && s[|s| - 1] == '\n' && Slug(s[..|s| - 1])))
  }

  function TargetOf(override: string, manifest: Manifest): string {
    var t := Lower(Trim(PySpace, override));
    if t != "" then t else manifest.domain
  }

  /** The checks that come before anything is written. */
  function Check(install: Install, db: Db, b: Bundle, override: string): Option<ImportError> {
    if b.manifest.None? || b.manifest.value.format != BUNDLE_FORMAT then Some(BundleInvalid)
    else if b.manifest.value.version != BUNDLE_VERSION then Some(UnsupportedVersion)
    else if b.manifest.value.model != install.model then Some(ModelMismatch)
    else if b.manifest.value.dim != install.dim then Some(DimMismatch)
    else
      var target := TargetOf(override, b.manifest.value);
      if !ValidDomain(target) then Some(InvalidDomainName)
      else if DocsOf(db, target) != {} || AliasRows(db, target) != {} then Some(DomainExists)
      else if b.meta.None? then Some(BundleInvalid)
      else None
  }

  function SeedRow(rt: Runtime, target: string, description: string): DocRow {
    var text := if description != "" then description else "Domain: " + target;
    var metadata := map[SYSTEM := "true", "_ob2_type" := "domain_init", "description" := description];
    DocRow(target, text, rt.embed(text), metadata, "")
  }

  predicate GoodRow(dim: nat, row: Option<BundleDoc>) {
    row.Some? && |row.value.embedding| == dim
  }

  /** Index of the first unreadable document row, or the number of rows. */
  function FirstBad(dim: nat, rows: seq<Option<BundleDoc>>): (k: nat)
    ensures k <= |rows|
    ensures k < |rows| ==> !GoodRow(dim, rows[k])
    ensures forall i :: 0 <= i < k ==> GoodRow(dim, rows[i])
  {
    if rows == [] || !GoodRow(dim, rows[0]) then 0 else FirstBad(dim, rows[1..]) + 1
  }

  function NewDocRow(target: string, row: BundleDoc): DocRow {
    var metadata := if row.id != "" then row.metadata[ORIG_DOC_ID := row.id] else row.metadata;
    DocRow(target, row.text, row.embedding, metadata, "")
  }

  /** The documents after the first `k` rows, row `i` under the new id `ids[i]`. */
  function DocsAfter(
    docs: map<string, DocRow>, target: string, rows: seq<Option<BundleDoc>>, ids: seq<string>,
    k: nat): map<string, DocRow>
    requires k <= |rows| <= |ids|
  {
    if k == 0 then docs
    else
      var before := DocsAfter(docs, target, rows, ids, k - 1);
      if rows[k - 1].None? then before else before[ids[k - 1] := NewDocRow(target, rows[k - 1].value)]
  }

  /** Old document ids to new ones. */
  function DocMap(rows: seq<Option<BundleDoc>>, ids: seq<string>, k: nat): map<string, string>
    requires k <= |rows| <= |ids|
  {
    if k == 0 then map[]
    else
      var before := DocMap(rows, ids, k - 1);
      if rows[k - 1].None? || rows[k - 1].value.id == "" then before else before[rows[k - 1].value.id := ids[k - 1]]
  }

  predicate GoodAlias(a: BundleAlias) {
    a.alias != "" && a.canonical != ""
  }

  function AliasesAfter(
    aliases: map<AliasKey, string>, target: string, rows: seq<BundleAlias>, k: nat): (map<AliasKey, string>, nat)
    requires k <= |rows|
  {
    if k == 0 then (aliases, 0)
    else
      var (before, n) := AliasesAfter(aliases, target, rows, k - 1);
      if GoodAlias(rows[k - 1]) then (before[AliasKey(target, rows[k - 1].alias) := rows[k - 1].canonical], n + 1)
      else (before, n)
  }

  predicate GoodEntity(row: Option<BundleEntity>) {
    row.Some? && row.value.name != "" && Upper(row.value.typ) in ENTITY_TYPES
  }

  function NewKey(target: string, e: BundleEntity): EntityKey {
    EntityKey(target, Upper(e.typ), e.name)
  }

  function NewId(rt: Runtime, target: string, e: BundleEntity): string {
    EntityId(rt, target, Upper(e.typ), e.name)
  }

  datatype EntityWork = EntityWork(entities: Entities, idMap: map<string, string>, count: nat)

  /** The entity rows and the old-to-new id map after the first `k` rows. */
  function EntitiesAfter(
    rt: Runtime, entities: Entities, target: string, rows: seq<Option<BundleEntity>>, k: nat): EntityWork
    requires k <= |rows|
  {
    if k == 0 then EntityWork(entities, map[], 0)
    else
      var w := EntitiesAfter(rt, entities, target, rows, k - 1);
      if !GoodEntity(rows[k - 1]) then w
      else
        var e := rows[k - 1].value;
        EntityWork(PutEntity(w.entities, NewKey(target, e), NewId(rt, target, e), false),
                   if e.id != "" then w.idMap[e.id := NewId(rt, target, e)] else w.idMap,
                   w.count + 1)
  }

  function MapMention(
    target: string, docMap: map<string, string>, idMap: map<string, string>,
    row: Option<BundleMention>): Option<Mention> {
    if row.None? || row.value.doc !in docMap || row.value.entity !in idMap then None
    else if docMap[row.value.doc] == "" || idMap[row.value.entity] == "" then None
    else Some(Mention(target, docMap[row.value.doc], idMap[row.value.entity]))
  }

  function MentionsAfter(
    mentions: set<Mention>, target: string, docMap: map<string, string>, idMap: map<string, string>,
    rows: seq<Option<BundleMention>>, k: nat)
    : (set<Mention>, nat)
    requires k <= |rows|
  {
    if k == 0 then (mentions, 0)
    else
      var (before, n) := MentionsAfter(mentions, target, docMap, idMap, rows, k - 1);
      var m := MapMention(target, docMap, idMap, rows[k - 1]);
      if m.Some? then (before + {m.value}, n + 1) else (before, n)
  }

  /** `recompute_mention_counts`. */
  function RecomputeCounts(entities: Entities, mentions: set<Mention>, domain: string): Entities {
    map k | k in entities ::
      if k.domain == domain then entities[k].(mentions := Rows(mentions, domain, entities[k].id)) else entities[k]
  }

  function ImportRelation(s: string): string {
    Lower(Trim(PySpace, s))
  }

  function MapEdge(target: string, idMap: map<string, string>, row: Option<BundleEdge>): Option<EdgeKey> {
    if row.None? || row.value.src !in idMap || row.value.dst !in idMap then None
    else if idMap[row.value.src] == "" || idMap[row.value.dst] == ""
      || ImportRelation(row.value.relation) == "" then None
    else Some(EdgeKey(target, idMap[row.value.src], idMap[row.value.dst], ImportRelation(row.value.relation)))
  }

  function MapEvidence(docMap: map<string, string>, evidence: Option<string>): Option<string> {
    if evidence.Some? && evidence.value != "" && evidence.value in docMap then Some(docMap[evidence.value]) else None
  }

  function EdgesAfter(
    edges: Edges, target: string, docMap: map<string, string>, idMap: map<string, string>,
    rows: seq<Option<BundleEdge>>, k: nat): EdgeWork
    requires k <= |rows|
  {
    if k == 0 then EdgeWork(edges, 0)
    else
      var w := EdgesAfter(edges, target, docMap, idMap, rows, k - 1);
      var e := MapEdge(target, idMap, rows[k - 1]);
      if e.None? then w
      else EdgeWork(PutEdge(w.edges, e.value, MapEvidence(docMap, rows[k - 1].value.evidence)), w.count + 1)
  }

  /** The tables and the result of importing `b`; `ids` are the document ids drawn for its rows. */
  function ImportOutcome(
    rt: Runtime, install: Install, db: Db, b: Bundle, override: string, ids: seq<string>): (ImportResult, Db)
    requires |b.docs| <= |ids|
  {
    var error := Check(install, db, b, override);
    if error.Some? then (Refused(error.value), db)
    else
      var target := TargetOf(override, b.manifest.value);
      var seeded := PutDoc(db, SeedId(target), SeedRow(rt, target, b.meta.value.description));
      var bad := FirstBad(install.dim, b.docs);
      if bad < |b.docs| then
        // The batches already written are rolled back by deleting the target domain.
        (Refused(BundleInvalid),
          RemoveDomain(seeded.(docs := DocsAfter(seeded.docs, target, b.docs, ids, bad - bad % BATCH)), target))
      else
        var docMap := DocMap(b.docs, ids, |b.docs|);
        var (aliases, na) := AliasesAfter(db.aliases, target, b.meta.value.aliases, |b.meta.value.aliases|);
        var ew := EntitiesAfter(rt, db.entities, target, b.entities, |b.entities|);
        var (mentions, nm) := MentionsAfter(db.mentions, target, docMap, ew.idMap, b.mentions, |b.mentions|);
        var entities := if b.mentions == [] then ew.entities else RecomputeCounts(ew.entities, mentions, target);
        var gw := EdgesAfter(db.edges, target, docMap, ew.idMap, b.edges, |b.edges|);
        (Imported(|b.docs|, na, ew.count, nm, gw.count),
         Db(DocsAfter(seeded.docs, target, b.docs, ids, |b.docs|), aliases, entities, mentions, gw.edges))
  }

  /** The document rows, written in batches; stops at the first unreadable one. */
  method ImportDocs(store: Store, dim: nat, target: string, rows: seq<Option<BundleDoc>>, ids: seq<string>)
    returns (ok: bool, docMap: map<string, string>, docCount: nat)
    requires |rows| <= |ids|
    modifies store`docs
    ensures ok <==> FirstBad(dim, rows) == |rows|
    ensures ok ==> docMap == DocMap(rows, ids, |rows|) && docCount == |rows|
    ensures ok ==> store.docs == DocsAfter(old(store.docs), target, rows, ids, |rows|)
    ensures !ok ==>
        store.docs == DocsAfter(old(store.docs), target, rows, ids, FirstBad(dim, rows) - FirstBad(dim, rows) % BATCH)
  {
    hide DocsAfter, DocMap, FirstBad, PutBatch, NewDocRow;
    docMap, docCount := map[], 0;
    var batch: seq<(string, DocRow)> := [];
    NoRows(store.docs, target, rows, ids);
    var i := 0;
    while i < |rows|
      invariant 0 <= i <= |rows| && i <= FirstBad(dim, rows)
      invariant |batch| < BATCH && docCount + |batch| == i && docCount % BATCH == 0
      invariant docMap == DocMap(rows, ids, i)
      invariant store.docs == DocsAfter(old(store.docs), target, rows, ids, docCount)
      invariant PutBatch(store.docs, batch, |batch|) == DocsAfter(old(store.docs), target, rows, ids, i)
    {
      if !GoodRow(dim, rows[i]) {
        assert i - i % BATCH == docCount;
        return false, docMap, docCount;
      }
      var row := rows[i].value;
      OneMoreRow(old(store.docs), dim, target, rows, ids, i);
      if row.id != "" {
        docMap := docMap[row.id := ids[i]];
      }
      PutBatchSnoc(store.docs, batch, (ids[i], NewDocRow(target, row)));
      batch := batch + [(ids[i], NewDocRow(target, row))];
      if |batch| >= BATCH {
        FlushBatch(store, batch);
        docCount := docCount + |batch|;
        batch := [];
        PutNothing(store.docs);
      }
      i := i + 1;
    }
    FlushBatch(store, batch);
    docCount := docCount + |batch|;
    ok := true;
  }

  function PutBatch(docs: map<string, DocRow>, batch: seq<(string, DocRow)>, k: nat): map<string, DocRow>
    requires k <= |batch|
  {
    if k == 0 then docs else PutBatch(docs, batch, k - 1)[batch[k - 1].0 := batch[k - 1].1]
  }

  lemma {:induction false} PutBatchPrefix(
    docs: map<string, DocRow>, batch: seq<(string, DocRow)>, more: seq<(string, DocRow)>, k: nat)
    requires k <= |batch|
    ensures PutBatch(docs, batch + more, k) == PutBatch(docs, batch, k)
    decreases k
  {
    if k > 0 {
      PutBatchPrefix(docs, batch, more, k - 1);
    }
  }

  lemma PutBatchSnoc(docs: map<string, DocRow>, batch: seq<(string, DocRow)>, x: (string, DocRow))
    ensures PutBatch(docs, batch + [x], |batch| + 1) == PutBatch(docs, batch, |batch|)[x.0 := x.1]
  {
    PutBatchPrefix(docs, batch, [x], |batch|);
  }

  lemma PutNothing(docs: map<string, DocRow>)
    ensures PutBatch(docs, [], 0) == docs
  {
  }

  lemma NoRows(docs: map<string, DocRow>, target: string, rows: seq<Option<BundleDoc>>, ids: seq<string>)
    requires |rows| <= |ids|
    ensures DocsAfter(docs, target, rows, ids, 0) == docs && DocMap(rows, ids, 0) == map[]
        && PutBatch(docs, [], 0) == docs
  {
  }

  lemma OneMoreRow(
    docs: map<string, DocRow>, dim: nat, target: string, rows: seq<Option<BundleDoc>>, ids: seq<string>, i: nat)
    requires i < |rows| <= |ids| && rows[i].Some?
    ensures DocsAfter(docs, target, rows, ids, i + 1) ==
        DocsAfter(docs, target, rows, ids, i)[ids[i] := NewDocRow(target, rows[i].value)]
    ensures
      var id := rows[i].value.id;
      DocMap(rows, ids, i + 1) == if id == "" then DocMap(rows, ids, i) else DocMap(rows, ids, i)[id := ids[i]]
  {
  }

  method FlushBatch(store: Store, batch: seq<(string, DocRow)>)
    modifies store`docs
    ensures store.docs == PutBatch(old(store.docs), batch, |batch|)
  {
    var i := 0;
    while i < |batch|
      invariant 0 <= i <= |batch|
      invariant store.docs == PutBatch(old(store.docs), batch, i)
    {
      store.UpsertDoc(batch[i].0, batch[i].1);
      i := i + 1;
    }
  }

  method ImportAliases(store: Store, target: string, rows: seq<BundleAlias>) returns (count: nat)
    modifies store`aliases
    ensures (store.aliases, count) == AliasesAfter(old(store.aliases), target, rows, |rows|)
  {
    count := 0;
    var i := 0;
    while i < |rows|
      invariant 0 <= i <= |rows|
      invariant (store.aliases, count) == AliasesAfter(old(store.aliases), target, rows, i)
    {
      if rows[i].alias != "" && rows[i].canonical != "" {
        store.aliases := store.aliases[AliasKey(target, rows[i].alias) := rows[i].canonical];
        count := count + 1;
      }
      i := i + 1;
    }
  }

  method ImportEntities(store: Store, target: string, rows: seq<Option<BundleEntity>>)
    returns (idMap: map<string, string>, count: nat)
    modifies store`entities
    ensures EntityWork(store.entities, idMap, count) ==
        EntitiesAfter(store.rt, old(store.entities), target, rows, |rows|)
  {
    hide Upper;
    hide EntityId;
    idMap, count := map[], 0;
    var i := 0;
    while i < |rows|
      invariant 0 <= i <= |rows|
      invariant EntityWork(store.entities, idMap, count) ==
          EntitiesAfter(store.rt, old(store.entities), target, rows, i)
    {
      if rows[i].Some? && rows[i].value.name != "" && Upper(rows[i].value.typ) in ENTITY_TYPES {
        var e := rows[i].value;
        var newId := EntityId(store.rt, target, Upper(e.typ), e.name);
        if e.id != "" {
          idMap := idMap[e.id := newId];
        }
        store.UpsertEntity(newId, EntityKey(target, Upper(e.typ), e.name), false);
        count := count + 1;
      }
      i := i + 1;
    }
  }

  method ImportMentions(
    store: Store, target: string, docMap: map<string, string>, idMap: map<string, string>,
    rows: seq<Option<BundleMention>>)
    returns (count: nat)
    modifies store`mentions
    ensures (store.mentions, count) == MentionsAfter(old(store.mentions), target, docMap, idMap, rows, |rows|)
  {
    count := 0;
    var i := 0;
    while i < |rows|
      invariant 0 <= i <= |rows|
      invariant (store.mentions, count) == MentionsAfter(old(store.mentions), target, docMap, idMap, rows, i)
    {
      var m := MapMention(target, docMap, idMap, rows[i]);
      if m.Some? {
        store.mentions := store.mentions + {m.value};
        count := count + 1;
      }
      i := i + 1;
    }
  }

  method ImportEdges(
    store: Store, target: string, docMap: map<string, string>, idMap: map<string, string>,
    rows: seq<Option<BundleEdge>>)
    returns (count: nat)
    modifies store`edges
    ensures EdgeWork(store.edges, count) == EdgesAfter(old(store.edges), target, docMap, idMap, rows, |rows|)
  {
    hide ImportRelation;
    count := 0;
    var i := 0;
    while i < |rows|
      invariant 0 <= i <= |rows|
      invariant EdgeWork(store.edges, count) == EdgesAfter(old(store.edges), target, docMap, idMap, rows, i)
    {
      var e := MapEdge(target, idMap, rows[i]);
      if e.Some? {
        store.UpsertEdge(e.value, MapEvidence(docMap, rows[i].value.evidence));
        count := count + 1;
      }
      i := i + 1;
    }
  }

  /** `method_import_domain` on an opened archive. */
  method ImportDomain(store: Store, install: Install, b: Bundle, override: string, ids: seq<string>)
    returns (r: ImportResult)
    requires |b.docs| <= |ids|
    modifies store
    ensures (r, store.Tables()) == ImportOutcome(store.rt, install, old(store.Tables()), b, override, ids)
  {
    hide RemoveDomain;
    hide EntitiesAfter;
    hide MentionsAfter;
    hide EdgesAfter;
    hide AliasesAfter;
    hide DocsAfter;
    hide DocMap;
    hide TargetOf;
    hide ValidDomain;
    var db := Db(store.docs, store.aliases, store.entities, store.mentions, store.edges);
    var error := Check(install, db, b, override);
    if error.Some? { return Refused(error.value); }
    var target := TargetOf(override, b.manifest.value);
    store.UpsertDoc(SeedId(target), SeedRow(store.rt, target, b.meta.value.description));
    var ok, docMap, docCount := ImportDocs(store, install.dim, target, b.docs, ids);
    if !ok {
      var removed := store.DeleteDomain(target);
      return Refused(BundleInvalid);
    }
    var aliasCount := ImportAliases(store, target, b.meta.value.aliases);
    var idMap, entityCount := ImportEntities(store, target, b.entities);
    var mentionCount := ImportMentions(store, target, docMap, idMap, b.mentions);
    if b.mentions != [] {
      store.entities := RecomputeCounts(store.entities, store.mentions, target);
    }
    var edgeCount := ImportEdges(store, target, docMap, idMap, b.edges);
    return Imported(docCount, aliasCount, entityCount, mentionCount, edgeCount);
  }

  // ---------- Names and relations under renaming ----------

  lemma FirstBar(a: string, b: string, c: string, d: string)
    requires '|' !in a && '|' !in c && a + "|" + b == c + "|" + d
    ensures a == c && b == d
  {
    var s := a + "|" + b;
    assert s[|a|] == '|' && s[|c|] == '|';
    forall i | 0 <= i < |a| ensures s[i] != '|' { assert a[i] in a; }
    forall i | 0 <= i < |c| ensures s[i] != '|' { assert c[i] in c; }
    assert s[..|a|] == a && s[..|c|] == c;
    assert s[|a| + 1..] == b && s[|c| + 1..] == d;
  }

  lemma TypesHaveNoBar(t: string)
    requires t in ENTITY_TYPES
    ensures '|' !in t
  {
  }

  lemma TypesAreUpper(t: string)
    requires t in ENTITY_TYPES
    ensures Upper(t) == t
  {
    assert forall i :: 0 <= i < |t| ==> Upper(t)[i] == t[i];
  }

  /** Within one domain an id stands for one type and one lower-cased name. */
  lemma IdParts(rt: Runtime, domain: string, t: string, n: string, u: string, m: string)
    requires Lawful(rt) && t in ENTITY_TYPES && u in ENTITY_TYPES
    ensures EntityId(rt, domain, t, n) == EntityId(rt, domain, u, m) <==> t == u && Lower(n) == Lower(m)
  {
    hide Lower;
    if EntityId(rt, domain, t, n) == EntityId(rt, domain, u, m) {
      var x, y := domain + "|" + t + "|" + Lower(n), domain + "|" + u + "|" + Lower(m);
      assert x == y;
      assert x == domain + "|" + (t + "|" + Lower(n)) && y == domain + "|" + (u + "|" + Lower(m));
      assert x[|domain| + 1..] == t + "|" + Lower(n) && y[|domain| + 1..] == u + "|" + Lower(m);
      TypesHaveNoBar(t);
      TypesHaveNoBar(u);
      FirstBar(t, Lower(n), u, Lower(m));
    }
  }

  lemma LowerKeepsSpace(c: char)
    ensures PySpace(AsciiLowerChar(c)) <==> PySpace(c)
  {
  }

  lemma LowerIdempotent(s: string)
    ensures Lower(Lower(s)) == Lower(s)
  {
  }

  lemma LowerTrimmed(s: string)
    requires Trimmed(PySpace, s)
    ensures Trimmed(PySpace, Lower(s))
  {
    if s != "" {
      LowerKeepsSpace(s[0]);
      LowerKeepsSpace(s[|s| - 1]);
    }
  }

  lemma TrimOfTrimmed(s: string)
    requires Trimmed(PySpace, s)
    ensures Trim(PySpace, s) == s
  {
  }

  lemma ImportRelationIdempotent(s: string)
    ensures ImportRelation(ImportRelation(s)) == ImportRelation(s)
  {
    var t := Trim(PySpace, s);
    TrimIsTrimmed(PySpace, s);
    LowerTrimmed(t);
    TrimOfTrimmed(Lower(t));
    LowerIdempotent(t);
  }

  /** A relation that extraction stores comes through import unchanged if and only if its last
      character is not whitespace, which the cut to 64 characters can make it. */
  lemma RelationSurvivesIff(raw: string)
    requires NormalizeRelation(raw) != ""
    ensures ImportRelation(NormalizeRelation(raw)) == NormalizeRelation(raw)
            <==> !PySpace(NormalizeRelation(raw)[|NormalizeRelation(raw)| - 1])
  {
    var trimmed, r := Trim(PySpace, raw), NormalizeRelation(raw);
    TrimIsTrimmed(PySpace, raw);
    assert !PySpace(trimmed[0]);
    LowerKeepsSpace(trimmed[0]);
    assert r[0] == Lower(trimmed)[0] by {
      assert Lower(trimmed)[0] != ' ';
    }
    assert Lower(r) == r;
    if !PySpace(r[|r| - 1]) {
      TrimOfTrimmed(r);
    } else {
      TrimIsTrimmed(PySpace, r);
      var back := Trim(PySpace, r);
      assert back != r;
      if ImportRelation(r) == r {
        assert |back| == |r|;
        TrimStartShape(PySpace, r);
        TrimEndShape(PySpace, TrimStart(PySpace, r));
        assert false;
      }
    }
  }

  /** Such relations exist: 63 letters, a tab and a letter. */
  lemma RelationCutAtTab()
    ensures
      var raw := seq(63, i => 'a') + "\tb";
      NormalizeRelation(raw) != "" && ImportRelation(NormalizeRelation(raw)) != NormalizeRelation(raw)
  {
    var raw := seq(63, i => 'a') + "\tb";
    assert raw[0] == 'a' && raw[64] == 'b' && raw[63] == '\t' && |raw| == 65;
    TrimOfTrimmed(raw);
    var r := SpacesToUnderscores(Lower(raw));
    assert NormalizeRelation(raw) == r[..64];
    assert r[..64][63] == '\t';
    RelationSurvivesIff(raw);
  }

  /** An alias that normalises to nothing gives an entity with an empty name, which import skips. */
  lemma EmptyNameFromAlias(rt: Runtime, aliases: map<AliasKey, string>, domain: string, e: RawEntity)
    requires e.RawEntity? && NormalizeName(rt, e.name) != "" && Upper(e.typ) in ENTITY_TYPES
    requires AliasKey(domain, NormalizeName(rt, e.name)) in aliases
    requires aliases[AliasKey(domain, NormalizeName(rt, e.name))] != ""
    ensures Accept(rt, aliases, domain, e).Some?
    ensures !GoodEntity(Some(BundleEntity(Accept(rt, aliases, domain, e).value.id,
        Accept(rt, aliases, domain, e).value.key.name, Upper(e.typ), 1)))
            <==> NormalizeName(rt, aliases[AliasKey(domain, NormalizeName(rt, e.name))]) == ""
  {
    hide NormalizeName;
    hide EntityId;
    TypesAreUpper(Upper(e.typ));
  }
}
