/** The knowledge graph: entities, mentions and edges per domain, the per-document extraction
    that fills them, and the pruning that empties them. */
module GraphStore {
  import opened Options
  import opened Text


  // ---------- Names and ids ----------

  /** Library code the store relies on: NFKC normalisation, the truncated SHA-1 and the embedder. */
  datatype Runtime = Runtime(nfkc: string -> string, digest: string -> string, embed: string -> seq<real>)

  /** The digest is taken to be collision-free and, as hex text, never empty. */
  ghost predicate Lawful(rt: Runtime) {
    && (forall x, y :: rt.digest(x) == rt.digest(y) ==> x == y)
    && (forall x :: rt.digest(x) != "")
  }

  const ENTITY_TYPES: set<string> := {"PERSON", "ORG", "PLACE", "PRODUCT", "EVENT", "CONCEPT", "OTHER"}

  predicate NameEdge(c: char) {
    c in " .,:;-_'\"`()[]{}"
  }

  /** `re.sub(r"\s+", " ", s)`. */
  function Collapse(s: string): string {
    if s == "" then ""
    else if PySpace(s[0]) then
      (if |s| > 1 && PySpace(s[1]) then "" else " ") + Collapse(s[1..])
    else [s[0]] + Collapse(s[1..])
  }

  function NormalizeName(rt: Runtime, s: string): string {
    Trim(NameEdge, Collapse(Trim(PySpace, rt.nfkc(s))))
  }

  function EntityId(rt: Runtime, domain: string, typ: string, name: string): string {
    rt.digest(domain + "|" + typ + "|" + Lower(name))
  }

  function SpacesToUnderscores(s: string): string {
    seq(|s|, i requires 0 <= i < |s| => if s[i] == ' ' then '_' else s[i])
  }

  function NormalizeRelation(s: string): string {
    var r := SpacesToUnderscores(Lower(Trim(PySpace, s)));
    if |r| <= 64 then r else r[..64]
  }

  /** Comparison of Python strings. */
  predicate Less(a: string, b: string) {
    if a == "" then b != ""
    else b != "" && (a[0] < b[0] || (a[0] == b[0] && Less(a[1..], b[1..])))
  }

  lemma {:induction false} LessTotal(a: string, b: string)
    ensures a == b || Less(a, b) || Less(b, a)
    ensures !(Less(a, b) && Less(b, a))
  {
    if a != "" && b != "" && a[0] == b[0] {
      LessTotal(a[1..], b[1..]);
      assert a == [a[0]] + a[1..] && b == [b[0]] + b[1..];
    }
  }

  // ---------- Tables ----------

  datatype DocRow = DocRow(domain: string, text: string, embedding: seq<real>, metadata: map<string, string>,
      sourceHash: string)
  datatype AliasKey = AliasKey(domain: string, alias: string)
  datatype EntityKey = EntityKey(domain: string, typ: string, name: string)
  datatype EntityRow = EntityRow(id: string, mentions: nat)
  datatype Mention = Mention(domain: string, doc: string, entity: string)
  datatype EdgeKey = EdgeKey(domain: string, src: string, dst: string, relation: string)
  datatype EdgeRow = EdgeRow(weight: nat, evidence: Option<string>)

  type Entities = map<EntityKey, EntityRow>
  type Edges = map<EdgeKey, EdgeRow>

  /** Keys are the uniqueness constraints of the schema. */
  datatype Db = Db(
    docs: map<string, DocRow>, aliases: map<AliasKey, string>,
    entities: Entities, mentions: set<Mention>, edges: Edges)

  const EMPTY_DB: Db := Db(map[], map[], map[], {}, map[])

  function MentionsOf(mentions: set<Mention>, domain: string, entity: string): set<Mention> {
    set m | m in mentions && m.domain == domain && m.entity == entity
  }

  function Rows(mentions: set<Mention>, domain: string, entity: string): nat {
    |MentionsOf(mentions, domain, entity)|
  }

  function PutEntity(entities: Entities, key: EntityKey, id: string, increment: bool): Entities {
    if key !in entities then entities[key := EntityRow(id, if increment then 1 else 0)]
    else if increment then entities[key := entities[key].(mentions := entities[key].mentions + 1)]
    else entities
  }

  function PutEdge(edges: Edges, key: EdgeKey, evidence: Option<string>): Edges {
    if key !in edges then edges[key := EdgeRow(1, evidence)]
    else edges[key := EdgeRow(edges[key].weight + 1, if evidence.Some? then evidence else edges[key].evidence)]
  }

  /** For the entities `ids` of a domain: recount their mentions, dropping those left with none. */
  function Recount(entities: Entities, domain: string, ids: set<string>, mentions: set<Mention>): Entities {
    map k | k in entities
      && !(k.domain == domain && entities[k].id in ids && Rows(mentions, domain, entities[k].id) == 0) ::
      if k.domain == domain && entities[k].id in ids
      then entities[k].(mentions := Rows(mentions, domain, entities[k].id)) else entities[k]
  }

  /** Drop the edges of a domain at those of `ids` that have no mention. */
  function DropEdges(edges: Edges, domain: string, ids: set<string>, mentions: set<Mention>): Edges {
    map k | k in edges
      && !(k.domain == domain && (Dead(ids, mentions, domain, k.src) || Dead(ids, mentions, domain, k.dst))) ::
      edges[k]
  }

  predicate Dead(ids: set<string>, mentions: set<Mention>, domain: string, id: string) {
    id in ids && Rows(mentions, domain, id) == 0
  }

  function EntitiesOfDoc(mentions: set<Mention>, domain: string, doc: string): set<string> {
    set m | m in mentions && m.domain == domain && m.doc == doc :: m.entity
  }

  function WithoutDoc(mentions: set<Mention>, domain: string, doc: string): set<Mention> {
    set m | m in mentions && !(m.domain == domain && m.doc == doc)
  }

  function PruneDoc(db: Db, domain: string, doc: string): Db {
    var touched := EntitiesOfDoc(db.mentions, domain, doc);
    var left := WithoutDoc(db.mentions, domain, doc);
    db.(mentions := left,
        entities := Recount(db.entities, domain, touched, left),
        edges := DropEdges(db.edges, domain, touched, left))
  }

  function PutDoc(db: Db, id: string, row: DocRow): Db {
    db.(docs := db.docs[id := row])
  }

  function RemoveDoc(db: Db, domain: string, id: string): Db {
    var pruned := PruneDoc(db, domain, id);
    if id in db.docs && db.docs[id].domain == domain then pruned.(docs := pruned.docs - {id}) else pruned
  }

  function RemoveDomain(db: Db, domain: string): Db {
    Db(map id | id in db.docs && db.docs[id].domain != domain :: db.docs[id],
       map k | k in db.aliases && k.domain != domain :: db.aliases[k],
       map k | k in db.entities && k.domain != domain :: db.entities[k],
       set m | m in db.mentions && m.domain != domain,
       map k | k in db.edges && k.domain != domain :: db.edges[k])
  }

  // ---------- Extraction ----------

  /** Items of the model's reply; anything that is not an object is junk. */
  datatype RawEntity = JunkEntity | RawEntity(name: string, typ: string)
  datatype RawRelation = JunkRelation | RawRelation(src: string, dst: string, relation: string)
  datatype Reply = Reply(entities: seq<RawEntity>, relations: seq<RawRelation>)

  datatype Accepted = Accepted(name: string, key: EntityKey, id: string)

  function ResolveAlias(aliases: map<AliasKey, string>, domain: string, name: string): string {
    var k := AliasKey(domain, name);
    if k in aliases && aliases[k] != "" then aliases[k] else name
  }

  /** The entity a reply item stands for, or nothing when it is skipped. */
  function Accept(rt: Runtime, aliases: map<AliasKey, string>, domain: string, e: RawEntity): Option<Accepted> {
    if e.JunkEntity? then None
    else
      var name := NormalizeName(rt, e.name);
      var typ := Upper(e.typ);
      if name == "" || typ !in ENTITY_TYPES then None
      else
        var canonical := NormalizeName(rt, ResolveAlias(aliases, domain, name));
        Some(Accepted(name, EntityKey(domain, typ, canonical), EntityId(rt, domain, typ, canonical)))
  }

  type Names = map<string, string>

  datatype Work = Work(db: Db, names: Names, count: nat)

  function EntityStep(rt: Runtime, domain: string, doc: string, w: Work, e: RawEntity): Work {
    match Accept(rt, w.db.aliases, domain, e)
    case None => w
    case Some(a) =>
      Work(w.db.(entities := PutEntity(w.db.entities, a.key, a.id, true),
                 mentions := w.db.mentions + {Mention(domain, doc, a.id)}),
           w.names[Lower(a.name) := a.id][Lower(a.key.name) := a.id],
           w.count + 1)
  }

  function EntitySteps(rt: Runtime, domain: string, doc: string, w: Work, es: seq<RawEntity>): Work
    decreases |es|
  {
    if es == [] then w else EntitySteps(rt, domain, doc, EntityStep(rt, domain, doc, w, es[0]), es[1..])
  }

  /** The edge a reply item stands for, its endpoints put in order, or nothing when it is skipped. */
  function AcceptRelation(rt: Runtime, domain: string, names: Names, r: RawRelation): Option<EdgeKey> {
    if r.JunkRelation? then None
    else
      var src, dst := NormalizeName(rt, r.src), NormalizeName(rt, r.dst);
      var relation := NormalizeRelation(r.relation);
      if src == "" || dst == "" || relation == "" || Lower(src) !in names || Lower(dst) !in names then None
      else
        var s, d := names[Lower(src)], names[Lower(dst)];
        if s == "" || d == "" || s == d then None
        else if Less(d, s) then Some(EdgeKey(domain, d, s, relation))
        else Some(EdgeKey(domain, s, d, relation))
  }

  datatype EdgeWork = EdgeWork(edges: Edges, count: nat)

  function RelationStep(rt: Runtime, domain: string, doc: string, names: Names, w: EdgeWork, r: RawRelation): EdgeWork {
    match AcceptRelation(rt, domain, names, r)
    case None => w
    case Some(k) => EdgeWork(PutEdge(w.edges, k, Some(doc)), w.count + 1)
  }

  function RelationSteps(
    rt: Runtime, domain: string, doc: string, names: Names, w: EdgeWork, rs: seq<RawRelation>): EdgeWork
    decreases |rs|
  {
    if rs == [] then w
    else RelationSteps(rt, domain, doc, names, RelationStep(rt, domain, doc, names, w, rs[0]), rs[1..])
  }

  function StoreReply(rt: Runtime, db: Db, domain: string, doc: string, reply: Reply): (Db, nat, nat) {
    var w := EntitySteps(rt, domain, doc, Work(db, map[], 0), reply.entities);
    var g := RelationSteps(rt, domain, doc, w.names, EdgeWork(w.db.edges, 0), reply.relations);
    (w.db.(edges := g.edges), w.count, g.count)
  }

  /** The graph after an extraction whose model call gave `reply`. */
  function Extracted(rt: Runtime, db: Db, domain: string, doc: string, reply: Reply): Db {
    StoreReply(rt, PruneDoc(db, domain, doc), domain, doc, reply).0
  }

  const EXTRACTED_AT := "_ob2_graph_extracted_at"
  const EXTRACTION_MODEL := "_ob2_graph_extraction_model"

  /** The document's metadata record when and by what it was extracted. */
  function Stamp(db: Db, domain: string, doc: string, now: string, model: string): Db {
    if doc in db.docs && db.docs[doc].domain == domain then
      var row := db.docs[doc];
      PutDoc(db, doc, row.(metadata := row.metadata[EXTRACTED_AT := now][EXTRACTION_MODEL := model]))
    else db
  }

  function RecountedOne(entities: Entities, domain: string, id: string, mentions: set<Mention>): Entities {
    if Rows(mentions, domain, id) == 0 then
      map k | k in entities && !(k.domain == domain && entities[k].id == id) :: entities[k]
    else
      map k | k in entities ::
        if k.domain == domain && entities[k].id == id then entities[k].(mentions := Rows(mentions, domain, id))
        else entities[k]
  }

  function DroppedOne(edges: Edges, domain: string, id: string, mentions: set<Mention>): Edges {
    if Rows(mentions, domain, id) == 0 then
      map k | k in edges && !(k.domain == domain && (k.src == id || k.dst == id)) :: edges[k]
    else edges
  }

  datatype ExtractResult = Skipped | NoModel | ExtractionFailed | Done(entityCount: nat, edgeCount: nat)

  /** `SQLiteVecBackend` as far as the graph and what it hangs on goes. */
  class Store {
    const rt: Runtime
    var docs: map<string, DocRow>
    var aliases: map<AliasKey, string>
    var entities: Entities
    var mentions: set<Mention>
    var edges: Edges

    ghost function Tables(): Db
      reads this
    {
      Db(docs, aliases, entities, mentions, edges)
    }

    constructor (rt: Runtime)
      ensures this.rt == rt && Tables() == EMPTY_DB
    {
      this.rt := rt;
      docs, aliases, entities, mentions, edges := map[], map[], map[], {}, map[];
    }

    method UpsertDoc(id: string, row: DocRow)
      modifies this`docs
      ensures Tables() == PutDoc(old(Tables()), id, row)
    {
      docs := docs[id := row];
    }

    method UpsertEntity(id: string, key: EntityKey, increment: bool)
      modifies this`entities
      ensures entities == PutEntity(old(entities), key, id, increment)
    {
      if key in entities {
        if increment {
          entities := entities[key := entities[key].(mentions := entities[key].mentions + 1)];
        }
      } else {
        entities := entities[key := EntityRow(id, if increment then 1 else 0)];
      }
    }

    method UpsertEdge(key: EdgeKey, evidence: Option<string>)
      modifies this`edges
      ensures edges == PutEdge(old(edges), key, evidence)
    {
      if key in edges {
        var row := edges[key];
        edges := edges[key := EdgeRow(row.weight + 1, if evidence.Some? then evidence else row.evidence)];
      } else {
        edges := edges[key := EdgeRow(1, evidence)];
      }
    }

    /** One round of the pruning loop: recount an entity, or drop it with its edges. */
    method VisitEntity(domain: string, eid: string)
      modifies this`entities, this`edges
      ensures entities == RecountedOne(old(entities), domain, eid, mentions)
      ensures edges == DroppedOne(old(edges), domain, eid, mentions)
    {
      var newCount := Rows(mentions, domain, eid);
      if newCount == 0 {
        edges := map k | k in edges && !(k.domain == domain && (k.src == eid || k.dst == eid)) :: edges[k];
        entities := map k | k in entities && !(k.domain == domain && entities[k].id == eid) :: entities[k];
      } else {
        entities := map k | k in entities ::
          if k.domain == domain && entities[k].id == eid then entities[k].(mentions := newCount) else entities[k];
      }
    }

    /** `delete_doc_graph`: drop the document's mentions, then visit each entity it mentioned. */
    method DeleteDocGraph(domain: string, doc: string) returns (removed: nat)
      modifies this`entities, this`mentions, this`edges
      ensures Tables() == PruneDoc(old(Tables()), domain, doc)
      ensures removed == |old(mentions)| - |mentions|
    {
      hide Recount, DropEdges, RecountedOne, DroppedOne, EntitiesOfDoc, WithoutDoc, Rows;
      RemovedCount(mentions, domain, doc);
      var touched := EntitiesOfDoc(mentions, domain, doc);
      var gone := set m | m in mentions && m.domain == domain && m.doc == doc;
      mentions := WithoutDoc(mentions, domain, doc);
      removed := |gone|;
      ghost var left := mentions;
      var todo := touched;
      assert touched - todo == {};
      RecountNothing(entities, domain, left);
      DropNoEdges(edges, domain, left);
      while todo != {}
        invariant todo <= touched && mentions == left
        invariant entities == Recount(old(entities), domain, touched - todo, left)
        invariant edges == DropEdges(old(edges), domain, touched - todo, left)
        decreases todo
      {
        var eid :| eid in todo;
        ghost var done := touched - todo;
        RecountOne(old(entities), domain, done, eid, left);
        DropEdgesOne(old(edges), domain, done, eid, left);
        VisitEntity(domain, eid);
        todo := todo - {eid};
        assert touched - todo == done + {eid};
      }
      assert touched - todo == touched;
    }

    method DeleteDoc(domain: string, doc: string) returns (found: bool)
      modifies this`docs, this`entities, this`mentions, this`edges
      ensures Tables() == RemoveDoc(old(Tables()), domain, doc)
      ensures found <==> doc in old(docs) && old(docs)[doc].domain == domain
    {
      var removed := DeleteDocGraph(domain, doc);
      if doc !in docs || docs[doc].domain != domain { return false; }
      docs := docs - {doc};
      return true;
    }

    method DeleteDomain(domain: string) returns (count: nat)
      modifies this`docs, this`aliases, this`entities, this`mentions, this`edges
      ensures Tables() == RemoveDomain(old(Tables()), domain)
      ensures count == |set id | id in old(docs) && old(docs)[id].domain == domain|
    {
      var keys := set id | id in docs && docs[id].domain == domain;
      count := |keys|;
      docs := map id | id in docs && docs[id].domain != domain :: docs[id];
      aliases := map k | k in aliases && k.domain != domain :: aliases[k];
      mentions := set m | m in mentions && m.domain != domain;
      edges := map k | k in edges && k.domain != domain :: edges[k];
      entities := map k | k in entities && k.domain != domain :: entities[k];
    }

    /** The loop over the reply's entities. */
    method StoreEntities(domain: string, doc: string, raw: seq<RawEntity>) returns (names: Names, count: nat)
      modifies this`entities, this`mentions
      ensures Work(Tables(), names, count) == EntitySteps(rt, domain, doc, Work(old(Tables()), map[], 0), raw)
    {
      hide Accept;
      names := map[];
      count := 0;
      var i := 0;
      while i < |raw|
        invariant 0 <= i <= |raw|
        invariant EntitySteps(rt, domain, doc, Work(Tables(), names, count), raw[i..])
               == EntitySteps(rt, domain, doc, Work(old(Tables()), map[], 0), raw)
      {
        assert raw[i..][0] == raw[i] && raw[i..][1..] == raw[i + 1..];
        var a := Accept(rt, aliases, domain, raw[i]);
        if a.Some? {
          UpsertEntity(a.value.id, a.value.key, true);
          mentions := mentions + {Mention(domain, doc, a.value.id)};
          names := names[Lower(a.value.name) := a.value.id];
          names := names[Lower(a.value.key.name) := a.value.id];
          count := count + 1;
        }
        i := i + 1;
      }
    }

    /** The loop over the reply's relationships. */
    method StoreRelations(domain: string, doc: string, names: Names, raw: seq<RawRelation>) returns (count: nat)
      modifies this`edges
      ensures EdgeWork(edges, count) == RelationSteps(rt, domain, doc, names, EdgeWork(old(edges), 0), raw)
    {
      hide AcceptRelation;
      count := 0;
      var i := 0;
      while i < |raw|
        invariant 0 <= i <= |raw|
        invariant RelationSteps(rt, domain, doc, names, EdgeWork(edges, count), raw[i..])
               == RelationSteps(rt, domain, doc, names, EdgeWork(old(edges), 0), raw)
      {
        assert raw[i..][0] == raw[i] && raw[i..][1..] == raw[i + 1..];
        var k := AcceptRelation(rt, domain, names, raw[i]);
        if k.Some? {
          UpsertEdge(k.value, Some(doc));
          count := count + 1;
        }
        i := i + 1;
      }
    }

    /** `method_extract_entities`: prune first, then ask the model, then store what it said. */
    method ExtractEntities(
      domain: string, doc: string, text: string, model: Option<string>, reply: Option<Reply>, now: string)
      returns (r: ExtractResult)
      modifies this
      ensures (r, Tables()) == ExtractOutcome(rt, old(Tables()), domain, doc, text, model, reply, now)
    {
      if Trim(PySpace, text) == "" { return Skipped; }
      if model.None? { return NoModel; }
      var removed := DeleteDocGraph(domain, doc);
      if reply.None? { return ExtractionFailed; }
      var names, entityCount := StoreEntities(domain, doc, reply.value.entities);
      var edgeCount := StoreRelations(domain, doc, names, reply.value.relations);
      if doc in docs && docs[doc].domain == domain {
        var row := docs[doc];
        UpsertDoc(doc, row.(metadata := row.metadata[EXTRACTED_AT := now][EXTRACTION_MODEL := model.value]));
      }
      return Done(entityCount, edgeCount);
    }
  }

  /** Result and tables of an extraction. A failed model call leaves the document pruned. */
  ghost function ExtractOutcome(
    rt: Runtime, db: Db, domain: string, doc: string, text: string, model: Option<string>, reply: Option<Reply>,
    now: string)
    : (ExtractResult, Db)
  {
    if Trim(PySpace, text) == "" then (Skipped, db)
    else if model.None? then (NoModel, db)
    else if reply.None? then (ExtractionFailed, PruneDoc(db, domain, doc))
    else
      var (stored, n, g) := StoreReply(rt, PruneDoc(db, domain, doc), domain, doc, reply.value);
      (Done(n, g), Stamp(stored, domain, doc, now, model.value))
  }

  // ---------- What an edge records ----------

  datatype EdgePut = EdgePut(key: EdgeKey, evidence: Option<string>)

  function PutEdges(edges: Edges, puts: seq<EdgePut>): Edges {
    if puts == [] then edges
    else PutEdge(PutEdges(edges, puts[..|puts| - 1]), puts[|puts| - 1].key, puts[|puts| - 1].evidence)
  }

  /** How often the edge was put. */
  function TimesPut(puts: seq<EdgePut>, key: EdgeKey): nat {
    if puts == [] then 0 else TimesPut(puts[..|puts| - 1], key) + if puts[|puts| - 1].key == key then 1 else 0
  }

  /** The evidence put last, if any put brought some, and otherwise what was there. */
  function LastEvidence(puts: seq<EdgePut>, key: EdgeKey, before: Option<string>): Option<string> {
    if puts == [] then before
    else
      var p := puts[|puts| - 1];
      if p.key == key && p.evidence.Some? then p.evidence else LastEvidence(puts[..|puts| - 1], key, before)
  }

  lemma {:induction false} NeverPut(puts: seq<EdgePut>, key: EdgeKey, before: Option<string>)
    requires TimesPut(puts, key) == 0
    ensures LastEvidence(puts, key, before) == before
    decreases |puts|
  {
    if puts != [] {
      NeverPut(puts[..|puts| - 1], key, before);
    }
  }

  /** However edges are put, a weight counts the puts of its own edge, and evidence is replaced by newer
      evidence only. */
  lemma {:induction false} EdgeRecordsPuts(edges: Edges, puts: seq<EdgePut>, key: EdgeKey)
    ensures
      var t := PutEdges(edges, puts);
      && (key in t <==> key in edges || TimesPut(puts, key) > 0)
      && (key in t ==>
            && t[key].weight == (if key in edges then edges[key].weight else 0) + TimesPut(puts, key)
            && t[key].evidence == LastEvidence(puts, key, if key in edges then edges[key].evidence else None))
    decreases |puts|
  {
    if puts != [] {
      if TimesPut(puts[..|puts| - 1], key) == 0 {
        NeverPut(puts[..|puts| - 1], key, if key in edges then edges[key].evidence else None);
      }
      EdgeRecordsPuts(edges, puts[..|puts| - 1], key);
    }
  }

  lemma RemovedCount(mentions: set<Mention>, domain: string, doc: string)
    ensures |set m | m in mentions && m.domain == domain && m.doc == doc| ==
            |mentions| - |WithoutDoc(mentions, domain, doc)|
  {
    var gone := set m | m in mentions && m.domain == domain && m.doc == doc;
    assert mentions == WithoutDoc(mentions, domain, doc) + gone && WithoutDoc(mentions, domain, doc) !! gone;
  }

  lemma RecountNothing(entities: Entities, domain: string, mentions: set<Mention>)
    ensures Recount(entities, domain, {}, mentions) == entities
  {
  }

  lemma DropNoEdges(edges: Edges, domain: string, mentions: set<Mention>)
    ensures DropEdges(edges, domain, {}, mentions) == edges
  {
  }

  lemma RecountOne(entities: Entities, domain: string, ids: set<string>, id: string, mentions: set<Mention>)
    requires id !in ids
    ensures Recount(entities, domain, ids + {id}, mentions) ==
        RecountedOne(Recount(entities, domain, ids, mentions), domain, id, mentions)
  {
  }

  lemma DropEdgesOne(edges: Edges, domain: string, ids: set<string>, id: string, mentions: set<Mention>)
    ensures DropEdges(edges, domain, ids + {id}, mentions) ==
        DroppedOne(DropEdges(edges, domain, ids, mentions), domain, id, mentions)
  {
  }
}
