/** What every run of the graph store keeps, and that extracting a document again changes nothing. */
module GraphIntegrity {
  import opened Options
  import opened Text
  import opened GraphStore

  // ---------- Sums of mention counts ----------

  /** Sum of the stored mention counts of the rows under `keys`. */
  ghost function Sum(entities: Entities, keys: set<EntityKey>): nat
    requires keys <= entities.Keys
  {
    if keys == {} then 0
    else
      var k :| k in keys;
      entities[k].mentions + Sum(entities, keys - {k})
  }

  lemma {:induction false} SumWithout(entities: Entities, keys: set<EntityKey>, k: EntityKey)
    requires keys <= entities.Keys && k in keys
    ensures Sum(entities, keys) == entities[k].mentions + Sum(entities, keys - {k})
    decreases keys
  {
    var j :| j in keys && Sum(entities, keys) == entities[j].mentions + Sum(entities, keys - {j});
    if j != k {
      SumWithout(entities, keys - {j}, k);
      SumWithout(entities, keys - {k}, j);
      assert keys - {j} - {k} == keys - {k} - {j};
    }
  }

  lemma {:induction false} SumSame(entities: Entities, other: Entities, keys: set<EntityKey>)
    requires keys <= entities.Keys && keys <= other.Keys
    requires forall k :: k in keys ==> entities[k].mentions == other[k].mentions
    ensures Sum(entities, keys) == Sum(other, keys)
    decreases keys
  {
    if keys != {} {
      var k :| k in keys;
      SumWithout(entities, keys, k);
      SumWithout(other, keys, k);
      SumSame(entities, other, keys - {k});
    }
  }

  /** The rows of one entity: a spelling each. */
  ghost function Spellings(entities: Entities, domain: string, id: string): set<EntityKey> {
    set k | k in entities && k.domain == domain && entities[k].id == id
  }

  ghost function Total(entities: Entities, domain: string, id: string): nat {
    Sum(entities, Spellings(entities, domain, id))
  }

  // ---------- Integrity ----------

  ghost predicate Mentioned(db: Db, domain: string, id: string) {
    exists m :: m in db.mentions && m.domain == domain && m.entity == id
  }

  ghost predicate HasRow(db: Db, domain: string, id: string) {
    exists k :: k in db.entities && k.domain == domain && db.entities[k].id == id
  }

  /** Rows carry the id their key determines, and nothing is orphaned. */
  ghost predicate EntityOk(rt: Runtime, db: Db, k: EntityKey)
    requires k in db.entities
  {
    && db.entities[k].id == EntityId(rt, k.domain, k.typ, k.name)
    && k.typ in ENTITY_TYPES
    && Mentioned(db, k.domain, db.entities[k].id)
  }

  /** Edges join mentioned entities. */
  ghost predicate EdgeOk(db: Db, e: EdgeKey) {
    Mentioned(db, e.domain, e.src) && Mentioned(db, e.domain, e.dst)
  }

  /** The counts stored for an entity, over its spellings, cover its mention rows. */
  ghost predicate CountsCover(db: Db, domain: string, id: string) {
    Rows(db.mentions, domain, id) <= Total(db.entities, domain, id)
  }

  ghost predicate Sound(rt: Runtime, db: Db) {
    && (forall k :: k in db.entities ==> EntityOk(rt, db, k))
    && (forall m :: m in db.mentions ==> HasRow(db, m.domain, m.entity))
    && (forall e :: e in db.edges ==> EdgeOk(db, e))
  }

  /** The part of integrity that concerns one domain. */
  ghost predicate SoundIn(rt: Runtime, db: Db, domain: string) {
    && (forall k :: k in db.entities && k.domain == domain ==> EntityOk(rt, db, k))
    && (forall m :: m in db.mentions && m.domain == domain ==> HasRow(db, domain, m.entity))
    && (forall e :: e in db.edges && e.domain == domain ==> EdgeOk(db, e))
  }

  /** Edges join two different entities, smaller id first. Extraction keeps this; an import under
      another name need not. */
  ghost predicate InOrder(db: Db) {
    forall e :: e in db.edges ==> Less(e.src, e.dst)
  }

  ghost predicate Covered(db: Db) {
    forall domain, id :: CountsCover(db, domain, id)
  }

  lemma RowsPositive(mentions: set<Mention>, domain: string, id: string)
    ensures Rows(mentions, domain, id) > 0 <==> exists m :: m in mentions && m.domain == domain && m.entity == id
  {
    var here := MentionsOf(mentions, domain, id);
    if here != {} {
      var m :| m in here;
      assert m in mentions && m.domain == domain && m.entity == id;
    }
    if m: Mention :| m in mentions && m.domain == domain && m.entity == id {
      assert m in here;
    }
  }

  // ---------- Pruning a document ----------

  lemma PruneMentioned(db: Db, domain: string, doc: string, d: string, id: string)
    requires Mentioned(db, d, id)
    ensures
      var t := PruneDoc(db, domain, doc);
      Mentioned(t, d, id) <==> !(d == domain && Dead(EntitiesOfDoc(db.mentions, domain, doc), t.mentions, d, id))
  {
    var t := PruneDoc(db, domain, doc);
    RowsPositive(t.mentions, d, id);
    var m :| m in db.mentions && m.domain == d && m.entity == id;
    if m in t.mentions {
      assert Mentioned(t, d, id);
    } else {
      assert id in EntitiesOfDoc(db.mentions, domain, doc);
    }
  }

  lemma PruneSound(rt: Runtime, db: Db, domain: string, doc: string)
    requires Sound(rt, db)
    ensures Sound(rt, PruneDoc(db, domain, doc))
  {
    hide EntityOk, HasRow, EdgeOk, PruneDoc;
    var t := PruneDoc(db, domain, doc);
    forall k | k in t.entities ensures EntityOk(rt, t, k) { PrunedEntity(rt, db, domain, doc, k); }
    forall m | m in t.mentions ensures HasRow(t, m.domain, m.entity) { PrunedMention(rt, db, domain, doc, m); }
    forall e | e in t.edges ensures EdgeOk(t, e) { PrunedEdge(rt, db, domain, doc, e); }
  }

  lemma PrunedEntity(rt: Runtime, db: Db, domain: string, doc: string, k: EntityKey)
    requires Sound(rt, db) && k in PruneDoc(db, domain, doc).entities
    ensures EntityOk(rt, PruneDoc(db, domain, doc), k)
  {
    hide Rows, EntityId;
    assert k in db.entities && EntityOk(rt, db, k);
    PruneMentioned(db, domain, doc, k.domain, db.entities[k].id);
  }

  lemma PrunedMention(rt: Runtime, db: Db, domain: string, doc: string, m: Mention)
    requires Sound(rt, db) && m in PruneDoc(db, domain, doc).mentions
    ensures HasRow(PruneDoc(db, domain, doc), m.domain, m.entity)
  {
    hide Rows, EntityId, EntityOk, EdgeOk;
    var t := PruneDoc(db, domain, doc);
    assert HasRow(db, m.domain, m.entity);
    var k :| k in db.entities && k.domain == m.domain && db.entities[k].id == m.entity;
    RowsPositive(t.mentions, m.domain, m.entity);
    assert k in t.entities;
  }

  lemma PrunedEdge(rt: Runtime, db: Db, domain: string, doc: string, e: EdgeKey)
    requires Sound(rt, db) && e in PruneDoc(db, domain, doc).edges
    ensures EdgeOk(PruneDoc(db, domain, doc), e)
  {
    hide Rows, EntityId, EntityOk, HasRow;
    assert e in db.edges && EdgeOk(db, e);
    PruneMentioned(db, domain, doc, e.domain, e.src);
    PruneMentioned(db, domain, doc, e.domain, e.dst);
  }

  lemma RowsShrink(db: Db, domain: string, doc: string, d: string, id: string)
    ensures
      var left := WithoutDoc(db.mentions, domain, doc);
      d != domain || id !in EntitiesOfDoc(db.mentions, domain, doc) ==> Rows(left, d, id) == Rows(db.mentions, d, id)
  {
    var left := WithoutDoc(db.mentions, domain, doc);
    if d != domain || id !in EntitiesOfDoc(db.mentions, domain, doc) {
      assert MentionsOf(left, d, id) == MentionsOf(db.mentions, d, id);
    }
  }

  lemma PruneCovered(rt: Runtime, db: Db, domain: string, doc: string)
    requires Sound(rt, db) && Covered(db)
    ensures Covered(PruneDoc(db, domain, doc))
  {
    hide Rows, Total, PruneDoc, EntityId;
    forall d, id ensures CountsCover(PruneDoc(db, domain, doc), d, id) {
      assert CountsCover(db, d, id);
      PruneCounts(db, domain, doc, d, id);
    }
  }

  lemma PruneCounts(db: Db, domain: string, doc: string, d: string, id: string)
    requires CountsCover(db, d, id) && forall m :: m in db.mentions ==> HasRow(db, m.domain, m.entity)
    ensures CountsCover(PruneDoc(db, domain, doc), d, id)
  {
    hide Rows;
    var t := PruneDoc(db, domain, doc);
    var touched := EntitiesOfDoc(db.mentions, domain, doc);
    RowsShrink(db, domain, doc, d, id);
    if d == domain && id in touched {
      if Rows(t.mentions, d, id) > 0 {
        RowsPositive(t.mentions, d, id);
        var m :| m in t.mentions && m.domain == d && m.entity == id;
        assert HasRow(db, m.domain, m.entity);
        var k :| k in db.entities && k.domain == d && db.entities[k].id == id;
        assert k in Spellings(t.entities, d, id);
        SumWithout(t.entities, Spellings(t.entities, d, id), k);
      }
    } else {
      assert Spellings(t.entities, d, id) == Spellings(db.entities, d, id);
      SumSame(db.entities, t.entities, Spellings(db.entities, d, id));
    }
  }

  // ---------- Storing one entity of a reply ----------

  ghost function PutMentioned(db: Db, key: EntityKey, id: string, doc: string): Db {
    db.(entities := PutEntity(db.entities, key, id, true), mentions := db.mentions + {Mention(key.domain, doc, id)})
  }

  lemma MentionedGrows(db: Db, t: Db, domain: string, id: string)
    requires db.mentions <= t.mentions && Mentioned(db, domain, id)
    ensures Mentioned(t, domain, id)
  {
  }

  lemma PutSound(rt: Runtime, db: Db, key: EntityKey, doc: string)
    requires Sound(rt, db) && key.typ in ENTITY_TYPES
    ensures Sound(rt, PutMentioned(db, key, EntityId(rt, key.domain, key.typ, key.name), doc))
  {
    hide EntityId;
    hide Less;
    var id := EntityId(rt, key.domain, key.typ, key.name);
    var t := PutMentioned(db, key, id, doc);
    var added := Mention(key.domain, doc, id);
    assert added in t.mentions;
    assert t.entities[key].id == id by {
      if key in db.entities { assert EntityOk(rt, db, key); }
    }
    forall k | k in t.entities ensures EntityOk(rt, t, k) {
      if k != key {
        assert EntityOk(rt, db, k);
        MentionedGrows(db, t, k.domain, db.entities[k].id);
      }
    }
    forall m | m in t.mentions ensures HasRow(t, m.domain, m.entity) {
      if m != added {
        var k :| k in db.entities && k.domain == m.domain && db.entities[k].id == m.entity;
        assert k in t.entities && t.entities[k].id == m.entity;
      }
    }
    forall e | e in t.edges ensures EdgeOk(t, e) {
      assert EdgeOk(db, e);
      MentionedGrows(db, t, e.domain, e.src);
      MentionedGrows(db, t, e.domain, e.dst);
    }
  }

  lemma RowsAfterPut(mentions: set<Mention>, m: Mention, d: string, id: string)
    ensures Rows(mentions + {m}, d, id) == Rows(mentions, d, id)
        + if m !in mentions && m.domain == d && m.entity == id then 1 else 0
  {
    if m !in mentions && m.domain == d && m.entity == id {
      assert MentionsOf(mentions + {m}, d, id) == MentionsOf(mentions, d, id) + {m};
    } else {
      assert MentionsOf(mentions + {m}, d, id) == MentionsOf(mentions, d, id);
    }
  }

  lemma PutCovered(rt: Runtime, db: Db, key: EntityKey, doc: string)
    requires Sound(rt, db) && Covered(db)
    ensures Covered(PutMentioned(db, key, EntityId(rt, key.domain, key.typ, key.name), doc))
  {
    hide EntityId, Rows, Total, PutMentioned;
    var id := EntityId(rt, key.domain, key.typ, key.name);
    assert key in db.entities ==> EntityOk(rt, db, key);
    forall d, i ensures CountsCover(PutMentioned(db, key, id, doc), d, i) {
      assert CountsCover(db, d, i);
      PutCounts(db, key, id, doc, d, i);
    }
  }

  lemma PutCounts(db: Db, key: EntityKey, id: string, doc: string, d: string, i: string)
    requires CountsCover(db, d, i) && (key in db.entities ==> db.entities[key].id == id)
    ensures CountsCover(PutMentioned(db, key, id, doc), d, i)
  {
    hide Rows;
    var t := PutMentioned(db, key, id, doc);
    RowsAfterPut(db.mentions, Mention(key.domain, doc, id), d, i);
    var before, after := Spellings(db.entities, d, i), Spellings(t.entities, d, i);
    if d == key.domain && i == id {
      assert after == before + {key};
      SumWithout(t.entities, after, key);
      SumSame(db.entities, t.entities, before - {key});
      assert after - {key} == before - {key};
      if key in db.entities {
        SumWithout(db.entities, before, key);
      } else {
        assert before - {key} == before;
      }
    } else {
      assert after == before;
      SumSame(db.entities, t.entities, before);
    }
  }

  /** The names known after some entities of the reply all stand for mentioned entities. */
  ghost predicate NamesOk(db: Db, domain: string, names: Names) {
    forall n :: n in names ==> Mentioned(db, domain, names[n])
  }

  lemma {:induction false} EntityStepsKeep(rt: Runtime, domain: string, doc: string, w: Work, es: seq<RawEntity>)
    requires Sound(rt, w.db) && NamesOk(w.db, domain, w.names)
    ensures
      var t := EntitySteps(rt, domain, doc, w, es);
      Sound(rt, t.db) && NamesOk(t.db, domain, t.names) && (Covered(w.db) ==> Covered(t.db))
    decreases |es|
  {
    hide Accept;
    hide Sound;
    hide Covered;
    if es != [] {
      EntityStepKeeps(rt, domain, doc, w, es[0]);
      EntityStepsKeep(rt, domain, doc, EntityStep(rt, domain, doc, w, es[0]), es[1..]);
    }
  }

  lemma AcceptShape(rt: Runtime, aliases: map<AliasKey, string>, domain: string, e: RawEntity)
    ensures
      var a := Accept(rt, aliases, domain, e);
      a.Some? ==>
        && a.value.key.domain == domain && a.value.key.typ in ENTITY_TYPES
        && a.value.id == EntityId(rt, domain, a.value.key.typ, a.value.key.name)
  {
  }

  lemma EntityStepKeeps(rt: Runtime, domain: string, doc: string, w: Work, e: RawEntity)
    requires Sound(rt, w.db) && NamesOk(w.db, domain, w.names)
    ensures
      var t := EntityStep(rt, domain, doc, w, e);
      Sound(rt, t.db) && NamesOk(t.db, domain, t.names) && (Covered(w.db) ==> Covered(t.db))
  {
    hide Accept;
    hide Sound;
    hide Covered;
    AcceptShape(rt, w.db.aliases, domain, e);
    var a := Accept(rt, w.db.aliases, domain, e);
    if a.Some? {
      PutSound(rt, w.db, a.value.key, doc);
      if Covered(w.db) {
        PutCovered(rt, w.db, a.value.key, doc);
      }
      var t := EntityStep(rt, domain, doc, w, e);
      assert t.db == PutMentioned(w.db, a.value.key, a.value.id, doc);
      assert Mention(domain, doc, a.value.id) in t.db.mentions;
      forall n | n in t.names ensures Mentioned(t.db, domain, t.names[n]) {
        if t.names[n] != a.value.id {
          MentionedGrows(w.db, t.db, domain, w.names[n]);
        }
      }
    }
  }

  lemma AcceptRelationShape(rt: Runtime, domain: string, names: Names, r: RawRelation)
    ensures
      var k := AcceptRelation(rt, domain, names, r);
      k.Some? ==>
        && k.value.domain == domain && Less(k.value.src, k.value.dst)
        && k.value.src in names.Values && k.value.dst in names.Values
        && k.value.relation == NormalizeRelation(r.relation) && k.value.relation != ""
  {
    hide NormalizeName;
    hide NormalizeRelation;
    hide Lower;
    var k := AcceptRelation(rt, domain, names, r);
    if k.Some? {
      LessTotal(k.value.src, k.value.dst);
    }
  }

  lemma {:induction false} RelationStepsKeep(
    rt: Runtime, db: Db, domain: string, doc: string, names: Names, w: EdgeWork, rs: seq<RawRelation>)
    requires NamesOk(db, domain, names) && forall e :: e in w.edges ==> EdgeOk(db, e)
    ensures forall e :: e in RelationSteps(rt, domain, doc, names, w, rs).edges ==> EdgeOk(db, e)
    decreases |rs|
  {
    hide AcceptRelation;
    if rs != [] {
      AcceptRelationShape(rt, domain, names, rs[0]);
      RelationStepsKeep(rt, db, domain, doc, names, RelationStep(rt, domain, doc, names, w, rs[0]), rs[1..]);
    }
  }

  /** New edges are put in order. */
  lemma {:induction false} RelationStepsInOrder(
    rt: Runtime, domain: string, doc: string, names: Names, w: EdgeWork, rs: seq<RawRelation>)
    requires forall e :: e in w.edges ==> Less(e.src, e.dst)
    ensures forall e :: e in RelationSteps(rt, domain, doc, names, w, rs).edges ==> Less(e.src, e.dst)
    decreases |rs|
  {
    hide AcceptRelation, Less;
    if rs != [] {
      AcceptRelationShape(rt, domain, names, rs[0]);
      RelationStepsInOrder(rt, domain, doc, names, RelationStep(rt, domain, doc, names, w, rs[0]), rs[1..]);
    }
  }

  lemma StoreReplyKeeps(rt: Runtime, db: Db, domain: string, doc: string, reply: Reply)
    requires Sound(rt, db)
    ensures
      var t := StoreReply(rt, db, domain, doc, reply).0;
      Sound(rt, t) && (Covered(db) ==> Covered(t)) && (InOrder(db) ==> InOrder(t))
  {
    hide Sound, Covered;
    EntityStepsKeep(rt, domain, doc, Work(db, map[], 0), reply.entities);
    EntityStepsShape(rt, domain, doc, Work(db, map[], 0), reply.entities);
    var w := EntitySteps(rt, domain, doc, Work(db, map[], 0), reply.entities);
    assert forall e :: e in w.db.edges ==> EdgeOk(w.db, e) by { EdgesOk(rt, w.db); }
    RelationStepsKeep(rt, w.db, domain, doc, w.names, EdgeWork(w.db.edges, 0), reply.relations);
    WithEdges(rt, w.db, StoreReply(rt, db, domain, doc, reply).0.edges);
    if InOrder(db) {
      RelationStepsInOrder(rt, domain, doc, w.names, EdgeWork(w.db.edges, 0), reply.relations);
    }
  }

  lemma EdgesOk(rt: Runtime, db: Db)
    requires Sound(rt, db)
    ensures forall e :: e in db.edges ==> EdgeOk(db, e)
  {
  }

  lemma ExtractedKeeps(rt: Runtime, db: Db, domain: string, doc: string, reply: Reply)
    requires Sound(rt, db)
    ensures
      var t := Extracted(rt, db, domain, doc, reply);
      Sound(rt, t) && (Covered(db) ==> Covered(t)) && (InOrder(db) ==> InOrder(t))
  {
    hide Sound, Covered, StoreReply;
    PruneSound(rt, db, domain, doc);
    if Covered(db) {
      PruneCovered(rt, db, domain, doc);
    }
    StoreReplyKeeps(rt, PruneDoc(db, domain, doc), domain, doc, reply);
  }

  /** Integrity depends on the graph tables only, and new edges only have to join mentioned entities. */
  lemma WithEdges(rt: Runtime, db: Db, edges: Edges)
    requires Sound(rt, db) && forall e :: e in edges ==> EdgeOk(db, e)
    ensures Sound(rt, db.(edges := edges)) && (Covered(db) ==> Covered(db.(edges := edges)))
  {
    var t := db.(edges := edges);
    forall k | k in t.entities ensures EntityOk(rt, t, k) { assert EntityOk(rt, db, k); }
    forall m | m in t.mentions ensures HasRow(t, m.domain, m.entity) { assert HasRow(db, m.domain, m.entity); }
    forall e | e in edges ensures EdgeOk(t, e) { assert EdgeOk(db, e); }
    forall d, id ensures CountsCover(t, d, id) <==> CountsCover(db, d, id) { }
  }

  /** The graph tables of two databases are the same. */
  ghost predicate SameGraph(db: Db, t: Db) {
    db.entities == t.entities && db.mentions == t.mentions && db.edges == t.edges
  }

  lemma SameGraphKeeps(rt: Runtime, db: Db, t: Db)
    requires Sound(rt, db) && SameGraph(db, t)
    ensures Sound(rt, t) && (Covered(db) ==> Covered(t)) && (InOrder(db) ==> InOrder(t))
  {
    forall k | k in t.entities ensures EntityOk(rt, t, k) { assert EntityOk(rt, db, k); }
    forall m | m in t.mentions ensures HasRow(t, m.domain, m.entity) { assert HasRow(db, m.domain, m.entity); }
    forall e | e in t.edges ensures EdgeOk(t, e) { assert EdgeOk(db, e); }
    forall d, id ensures CountsCover(t, d, id) <==> CountsCover(db, d, id) { }
  }

  lemma RemoveDomainKeeps(rt: Runtime, db: Db, domain: string)
    requires Sound(rt, db)
    ensures
      var t := RemoveDomain(db, domain);
      Sound(rt, t) && (Covered(db) ==> Covered(t)) && (InOrder(db) ==> InOrder(t))
  {
    RemoveDomainSound(rt, db, domain);
    hide Sound, CountsCover;
    if Covered(db) {
      forall d, id ensures CountsCover(RemoveDomain(db, domain), d, id) {
        assert CountsCover(db, d, id);
        RemovedCounts(db, domain, d, id);
      }
    }
  }

  lemma RemoveDomainSound(rt: Runtime, db: Db, domain: string)
    requires Sound(rt, db)
    ensures Sound(rt, RemoveDomain(db, domain))
  {
    hide EntityId;
    var t := RemoveDomain(db, domain);
    forall k | k in t.entities ensures EntityOk(rt, t, k) {
      assert EntityOk(rt, db, k);
      MentionedElsewhere(db, domain, k.domain, db.entities[k].id);
    }
    forall m | m in t.mentions ensures HasRow(t, m.domain, m.entity) {
      var k :| k in db.entities && k.domain == m.domain && db.entities[k].id == m.entity;
      assert k in t.entities;
    }
    forall e | e in t.edges ensures EdgeOk(t, e) {
      assert EdgeOk(db, e);
      MentionedElsewhere(db, domain, e.domain, e.src);
      MentionedElsewhere(db, domain, e.domain, e.dst);
    }
  }

  lemma MentionedElsewhere(db: Db, domain: string, d: string, id: string)
    requires d != domain && Mentioned(db, d, id)
    ensures Mentioned(RemoveDomain(db, domain), d, id)
  {
    var m :| m in db.mentions && m.domain == d && m.entity == id;
    assert m in RemoveDomain(db, domain).mentions;
  }

  lemma RemovedCounts(db: Db, domain: string, d: string, id: string)
    requires CountsCover(db, d, id)
    ensures CountsCover(RemoveDomain(db, domain), d, id)
  {
    var t := RemoveDomain(db, domain);
    if d == domain {
      assert MentionsOf(t.mentions, d, id) == {};
    } else {
      assert MentionsOf(t.mentions, d, id) == MentionsOf(db.mentions, d, id);
      assert Spellings(t.entities, d, id) == Spellings(db.entities, d, id);
      SumSame(db.entities, t.entities, Spellings(db.entities, d, id));
    }
  }

  // ---------- Runs ----------

  datatype Action =
    | Capture(id: string, row: DocRow)
    | SetAlias(key: AliasKey, canonical: string)
    | Extract(domain: string, doc: string, text: string, model: Option<string>, reply: Option<Reply>, now: string)
    | DeleteDoc(domain: string, doc: string)
    | DeleteDomain(domain: string)

  ghost function Apply(rt: Runtime, db: Db, a: Action): Db {
    match a
    case Capture(id, row) => PutDoc(db, id, row)
    case SetAlias(key, canonical) => db.(aliases := db.aliases[key := canonical])
    case Extract(domain, doc, text, model, reply, now) => ExtractOutcome(rt, db, domain, doc, text, model, reply, now).1
    case DeleteDoc(domain, doc) => RemoveDoc(db, domain, doc)
    case DeleteDomain(domain) => RemoveDomain(db, domain)
  }

  ghost function Run(rt: Runtime, db: Db, actions: seq<Action>): Db
    decreases |actions|
  {
    if actions == [] then db else Run(rt, Apply(rt, db, actions[0]), actions[1..])
  }

  lemma ApplyKeeps(rt: Runtime, db: Db, a: Action)
    requires Sound(rt, db)
    ensures
      var t := Apply(rt, db, a);
      Sound(rt, t) && (Covered(db) ==> Covered(t)) && (InOrder(db) ==> InOrder(t))
  {
    hide Sound, Covered, StoreReply;
    var t := Apply(rt, db, a);
    match a
    case Capture(_, _) => SameGraphKeeps(rt, db, t);
    case SetAlias(_, _) => SameGraphKeeps(rt, db, t);
    case DeleteDomain(domain) => RemoveDomainKeeps(rt, db, domain);
    case DeleteDoc(domain, doc) =>
      PruneKeeps(rt, db, domain, doc);
      SameGraphKeeps(rt, PruneDoc(db, domain, doc), t);
    case Extract(domain, doc, text, model, reply, now) =>
      if Trim(PySpace, text) != "" && model.Some? {
        PruneKeeps(rt, db, domain, doc);
        if reply.Some? {
          ExtractedKeeps(rt, db, domain, doc, reply.value);
          SameGraphKeeps(rt, Extracted(rt, db, domain, doc, reply.value), t);
        }
      }
  }

  lemma PruneKeeps(rt: Runtime, db: Db, domain: string, doc: string)
    requires Sound(rt, db)
    ensures
      var t := PruneDoc(db, domain, doc);
      Sound(rt, t) && (Covered(db) ==> Covered(t)) && (InOrder(db) ==> InOrder(t))
  {
    hide Sound, Covered, Rows, Less;
    PruneSound(rt, db, domain, doc);
    if Covered(db) {
      PruneCovered(rt, db, domain, doc);
    }
  }

  lemma {:induction false} RunKeeps(rt: Runtime, db: Db, actions: seq<Action>)
    requires Sound(rt, db) && Covered(db) && InOrder(db)
    ensures Sound(rt, Run(rt, db, actions)) && Covered(Run(rt, db, actions)) && InOrder(Run(rt, db, actions))
    decreases |actions|
  {
    hide Apply, Sound, Covered, InOrder;
    if actions != [] {
      ApplyKeeps(rt, db, actions[0]);
      RunKeeps(rt, Apply(rt, db, actions[0]), actions[1..]);
    }
  }

  lemma EmptyIsSound(rt: Runtime)
    ensures Sound(rt, EMPTY_DB) && Covered(EMPTY_DB) && InOrder(EMPTY_DB)
  {
    forall d, id ensures CountsCover(EMPTY_DB, d, id) {
      assert MentionsOf({}, d, id) == {};
    }
  }

  /** MAIN: whatever the model replies and whatever is captured, aliased and deleted, every
      mention has an entity row, every entity row has its own id and a mention, every edge joins
      two different mentioned entities smaller id first, and the counts cover the mentions. */
  lemma RunsAreSound(rt: Runtime, actions: seq<Action>)
    ensures Sound(rt, Run(rt, EMPTY_DB, actions)) && Covered(Run(rt, EMPTY_DB, actions))
        && InOrder(Run(rt, EMPTY_DB, actions))
  {
    EmptyIsSound(rt);
    RunKeeps(rt, EMPTY_DB, actions);
  }

  // ---------- Domains do not touch each other ----------

  /** Everything stored for `domain`, graph, aliases and documents, is the same in both. */
  ghost predicate SameIn(db: Db, t: Db, domain: string) {
    && (forall k: EntityKey :: k.domain == domain ==>
          (k in db.entities <==> k in t.entities) && (k in db.entities ==> db.entities[k] == t.entities[k]))
    && (forall m: Mention :: m.domain == domain ==> (m in db.mentions <==> m in t.mentions))
    && (forall e: EdgeKey :: e.domain == domain ==>
          (e in db.edges <==> e in t.edges) && (e in db.edges ==> db.edges[e] == t.edges[e]))
    && (forall k: AliasKey :: k.domain == domain ==>
          (k in db.aliases <==> k in t.aliases) && (k in db.aliases ==> db.aliases[k] == t.aliases[k]))
    && (forall id :: id in db.docs && db.docs[id].domain == domain ==> id in t.docs && t.docs[id] == db.docs[id])
    && (forall id :: id in t.docs && t.docs[id].domain == domain ==> id in db.docs && t.docs[id] == db.docs[id])
  }

  predicate Concerns(a: Action, domain: string) {
    match a
    case Capture(_, row) => row.domain == domain
    case SetAlias(key, _) => key.domain == domain
    case Extract(d, _, _, _, _, _) => d == domain
    case DeleteDoc(d, _) => d == domain
    case DeleteDomain(d) => d == domain
  }

  lemma {:induction false} EntityStepsElsewhere(
    rt: Runtime, domain: string, doc: string, w: Work, es: seq<RawEntity>, other: string)
    requires other != domain
    ensures SameIn(w.db, EntitySteps(rt, domain, doc, w, es).db, other)
    decreases |es|
  {
    hide Accept;
    if es != [] {
      AcceptShape(rt, w.db.aliases, domain, es[0]);
      EntityStepsElsewhere(rt, domain, doc, EntityStep(rt, domain, doc, w, es[0]), es[1..], other);
    }
  }

  lemma {:induction false} RelationStepsElsewhere(
    rt: Runtime, domain: string, doc: string, names: Names, w: EdgeWork, rs: seq<RawRelation>)
    ensures forall e: EdgeKey :: e.domain != domain ==>
      var edges := RelationSteps(rt, domain, doc, names, w, rs).edges;
      (e in w.edges <==> e in edges) && (e in w.edges ==> w.edges[e] == edges[e])
    decreases |rs|
  {
    hide AcceptRelation;
    if rs != [] {
      AcceptRelationShape(rt, domain, names, rs[0]);
      RelationStepsElsewhere(rt, domain, doc, names, RelationStep(rt, domain, doc, names, w, rs[0]), rs[1..]);
    }
  }

  lemma PruneElsewhere(db: Db, domain: string, doc: string, other: string)
    requires other != domain
    ensures SameIn(db, PruneDoc(db, domain, doc), other)
  {
    hide Rows;
  }

  lemma SameInTrans(a: Db, b: Db, c: Db, domain: string)
    requires SameIn(a, b, domain) && SameIn(b, c, domain)
    ensures SameIn(a, c, domain)
  {
  }

  lemma StoreReplyElsewhere(rt: Runtime, db: Db, domain: string, doc: string, reply: Reply, other: string)
    requires other != domain
    ensures SameIn(db, StoreReply(rt, db, domain, doc, reply).0, other)
  {
    var w := EntitySteps(rt, domain, doc, Work(db, map[], 0), reply.entities);
    EntityStepsElsewhere(rt, domain, doc, Work(db, map[], 0), reply.entities, other);
    RelationStepsElsewhere(rt, domain, doc, w.names, EdgeWork(w.db.edges, 0), reply.relations);
  }

  lemma ExtractElsewhere(
    rt: Runtime, db: Db, domain: string, doc: string, text: string, model: Option<string>, reply: Option<Reply>,
    now: string, other: string)
    requires domain != other
    ensures SameIn(db, ExtractOutcome(rt, db, domain, doc, text, model, reply, now).1, other)
  {
    hide StoreReply, PruneDoc, SameIn, Stamp;
    if Trim(PySpace, text) == "" || model.None? {
      SameInItself(db, other);
    } else {
      var pruned := PruneDoc(db, domain, doc);
      PruneElsewhere(db, domain, doc, other);
      if reply.Some? {
        var stored := StoreReply(rt, pruned, domain, doc, reply.value).0;
        StoreReplyElsewhere(rt, pruned, domain, doc, reply.value, other);
        SameInTrans(db, pruned, stored, other);
        StampElsewhere(stored, domain, doc, now, model.value, other);
        SameInTrans(db, stored, Stamp(stored, domain, doc, now, model.value), other);
      }
    }
  }

  lemma SameInItself(db: Db, domain: string)
    ensures SameIn(db, db, domain)
  {
  }

  lemma StampElsewhere(db: Db, domain: string, doc: string, now: string, model: string, other: string)
    requires domain != other
    ensures SameIn(db, Stamp(db, domain, doc, now, model), other)
  {
  }

  /** MAIN: extracting, deleting or aliasing in one domain leaves every other domain as it was; so
      does capturing, unless the document id is already taken by that other domain. */
  lemma OtherDomainsUntouched(rt: Runtime, db: Db, a: Action, other: string)
    requires !Concerns(a, other)
    requires a.Capture? && a.id in db.docs ==> db.docs[a.id].domain != other
    ensures SameIn(db, Apply(rt, db, a), other)
  {
    hide PruneDoc, ExtractOutcome;
    match a
    case Capture(_, _) =>
    case SetAlias(_, _) =>
    case DeleteDomain(_) =>
    case DeleteDoc(domain, doc) =>
      PruneElsewhere(db, domain, doc, other);
      SameInTrans(db, PruneDoc(db, domain, doc), RemoveDoc(db, domain, doc), other);
    case Extract(domain, doc, text, model, reply, now) =>
      ExtractElsewhere(rt, db, domain, doc, text, model, reply, now, other);
  }

  // ---------- Exact counts ----------

  ghost predicate Exact(db: Db) {
    forall k :: k in db.entities ==> db.entities[k].mentions == Rows(db.mentions, k.domain, db.entities[k].id)
  }

  ghost predicate OneSpelling(db: Db) {
    forall j, k ::
      j in db.entities && k in db.entities && j.domain == k.domain && db.entities[j].id == db.entities[k].id ==> j == k
  }

  /** Each id occurs once among the accepted items, spelled as the store already spells it. */
  ghost predicate CleanReply(rt: Runtime, db: Db, domain: string, es: seq<RawEntity>) {
    && (forall i, j ::
          0 <= i < j < |es| && Accept(rt, db.aliases, domain, es[i]).Some? &&
          Accept(rt, db.aliases, domain, es[j]).Some? ==>
            Accept(rt, db.aliases, domain, es[i]).value.id != Accept(rt, db.aliases, domain, es[j]).value.id)
    && (forall i :: 0 <= i < |es| && Accept(rt, db.aliases, domain, es[i]).Some? ==>
          SpelledAs(db, Accept(rt, db.aliases, domain, es[i]).value))
  }

  /** The store has no other spelling of this entity. */
  ghost predicate SpelledAs(db: Db, a: Accepted) {
    forall k :: k in db.entities && k.domain == a.key.domain && db.entities[k].id == a.id ==> k == a.key
  }

  ghost predicate NotYetMentioned(rt: Runtime, db: Db, domain: string, doc: string, es: seq<RawEntity>) {
    forall i :: 0 <= i < |es| && Accept(rt, db.aliases, domain, es[i]).Some? ==>
      Mention(domain, doc, Accept(rt, db.aliases, domain, es[i]).value.id) !in db.mentions
  }

  lemma PruneExact(db: Db, domain: string, doc: string)
    requires Exact(db) && OneSpelling(db)
    ensures Exact(PruneDoc(db, domain, doc)) && OneSpelling(PruneDoc(db, domain, doc))
  {
    hide Rows;
    var t := PruneDoc(db, domain, doc);
    forall k | k in t.entities ensures t.entities[k].mentions == Rows(t.mentions, k.domain, t.entities[k].id) {
      RowsShrink(db, domain, doc, k.domain, db.entities[k].id);
    }
  }

  /** A row that is there counts one mention more. */
  lemma PutExactOld(rt: Runtime, db: Db, key: EntityKey, doc: string)
    requires Sound(rt, db) && Exact(db) && OneSpelling(db) && key in db.entities
    requires Mention(key.domain, doc, db.entities[key].id) !in db.mentions
    ensures
      var t := PutMentioned(db, key, db.entities[key].id, doc);
      Exact(t) && OneSpelling(t)
  {
    hide EntityId, Rows, Sound;
    var t := PutMentioned(db, key, db.entities[key].id, doc);
    forall k | k in t.entities ensures t.entities[k].mentions == Rows(t.mentions, k.domain, t.entities[k].id) {
      RowsAfterPut(db.mentions, Mention(key.domain, doc, db.entities[key].id), k.domain, db.entities[k].id);
    }
  }

  /** A new row has its first mention. */
  lemma PutExactNew(rt: Runtime, db: Db, key: EntityKey, id: string, doc: string)
    requires Sound(rt, db) && Exact(db) && OneSpelling(db) && key !in db.entities
    requires forall k :: k in db.entities && k.domain == key.domain ==> db.entities[k].id != id
    ensures
      var t := PutMentioned(db, key, id, doc);
      Exact(t) && OneSpelling(t)
  {
    NoRowNoMention(rt, db, key.domain, id);
    hide EntityId, Rows, Sound;
    var t := PutMentioned(db, key, id, doc);
    RowsPositive(db.mentions, key.domain, id);
    forall k | k in t.entities ensures t.entities[k].mentions == Rows(t.mentions, k.domain, t.entities[k].id) {
      RowsAfterPut(db.mentions, Mention(key.domain, doc, id), k.domain, t.entities[k].id);
    }
  }

  lemma NoRowNoMention(rt: Runtime, db: Db, domain: string, id: string)
    requires Sound(rt, db) && forall k :: k in db.entities && k.domain == domain ==> db.entities[k].id != id
    ensures forall m :: m in db.mentions && m.domain == domain ==> m.entity != id
  {
    hide EntityOk, EdgeOk;
    forall m | m in db.mentions && m.domain == domain ensures m.entity != id {
      assert HasRow(db, m.domain, m.entity);
    }
  }

  lemma PutExact(rt: Runtime, db: Db, key: EntityKey, doc: string)
    requires Sound(rt, db) && Exact(db) && OneSpelling(db)
    requires Mention(key.domain, doc, EntityId(rt, key.domain, key.typ, key.name)) !in db.mentions
    requires forall k ::
      k in db.entities && k.domain == key.domain &&
      db.entities[k].id == EntityId(rt, key.domain, key.typ, key.name) ==>
        k == key
    ensures
      var t := PutMentioned(db, key, EntityId(rt, key.domain, key.typ, key.name), doc);
      Exact(t) && OneSpelling(t)
  {
    if key in db.entities {
      assert EntityOk(rt, db, key);
      hide EntityId, Sound, Exact, OneSpelling;
      PutExactOld(rt, db, key, doc);
    } else {
      hide EntityId, Sound, Exact, OneSpelling;
      PutExactNew(rt, db, key, EntityId(rt, key.domain, key.typ, key.name), doc);
    }
  }

  lemma {:induction false} EntityStepsExact(rt: Runtime, domain: string, doc: string, w: Work, es: seq<RawEntity>)
    requires Sound(rt, w.db) && Exact(w.db) && OneSpelling(w.db)
    requires CleanReply(rt, w.db, domain, es) && NotYetMentioned(rt, w.db, domain, doc, es)
    ensures Exact(EntitySteps(rt, domain, doc, w, es).db) && OneSpelling(EntitySteps(rt, domain, doc, w, es).db)
    decreases |es|
  {
    hide Accept;
    hide EntityId;
    hide Rows;
    if es != [] {
      EntityStepExact(rt, domain, doc, w, es);
      RestIsClean(rt, domain, doc, w, es);
      hide Sound, Exact, OneSpelling, CleanReply, NotYetMentioned, EntityStep;
      EntityStepsExact(rt, domain, doc, EntityStep(rt, domain, doc, w, es[0]), es[1..]);
    }
  }

  lemma EntityStepExact(rt: Runtime, domain: string, doc: string, w: Work, es: seq<RawEntity>)
    requires Sound(rt, w.db) && Exact(w.db) && OneSpelling(w.db) && es != []
    requires CleanReply(rt, w.db, domain, es) && NotYetMentioned(rt, w.db, domain, doc, es)
    ensures
      var next := EntityStep(rt, domain, doc, w, es[0]).db;
      Sound(rt, next) && Exact(next) && OneSpelling(next)
  {
    hide Accept, EntityId, Rows, Sound, Exact, OneSpelling;
    var a := Accept(rt, w.db.aliases, domain, es[0]);
    if a.Some? {
      AcceptShape(rt, w.db.aliases, domain, es[0]);
      PutSound(rt, w.db, a.value.key, doc);
      assert SpelledAs(w.db, a.value);
      PutExact(rt, w.db, a.value.key, doc);
      assert EntityStep(rt, domain, doc, w, es[0]).db == PutMentioned(w.db, a.value.key, a.value.id, doc);
    }
  }

  lemma RestIsClean(rt: Runtime, domain: string, doc: string, w: Work, es: seq<RawEntity>)
    requires es != [] && CleanReply(rt, w.db, domain, es) && NotYetMentioned(rt, w.db, domain, doc, es)
    ensures
      var next := EntityStep(rt, domain, doc, w, es[0]).db;
      CleanReply(rt, next, domain, es[1..]) && NotYetMentioned(rt, next, domain, doc, es[1..])
  {
    hide Accept, EntityId;
    assert forall i :: 0 <= i < |es[1..]| ==> es[1..][i] == es[i + 1];
  }

  /** A reply that gives each entity once and in the stored spelling keeps every stored count exact. */
  lemma ExtractedExact(rt: Runtime, db: Db, domain: string, doc: string, reply: Reply)
    requires Sound(rt, db) && Exact(db) && OneSpelling(db)
    requires CleanReply(rt, PruneDoc(db, domain, doc), domain, reply.entities)
    ensures Exact(Extracted(rt, db, domain, doc, reply)) && OneSpelling(Extracted(rt, db, domain, doc, reply))
  {
    hide Accept;
    hide Rows;
    var pruned := PruneDoc(db, domain, doc);
    PruneSound(rt, db, domain, doc);
    PruneExact(db, domain, doc);
    EntityStepsExact(rt, domain, doc, Work(pruned, map[], 0), reply.entities);
  }

  lemma RemoveDomainExact(db: Db, domain: string)
    requires Exact(db) && OneSpelling(db)
    ensures Exact(RemoveDomain(db, domain)) && OneSpelling(RemoveDomain(db, domain))
  {
    var t := RemoveDomain(db, domain);
    forall k | k in t.entities ensures t.entities[k].mentions == Rows(t.mentions, k.domain, t.entities[k].id) {
      assert MentionsOf(t.mentions, k.domain, t.entities[k].id) == MentionsOf(db.mentions, k.domain, t.entities[k].id);
    }
  }

  /** If the action stores a reply, the reply is clean for the graph it is stored into. */
  ghost predicate CleanAction(rt: Runtime, db: Db, a: Action) {
    a.Extract? && Trim(PySpace, a.text) != "" && a.model.Some? && a.reply.Some? ==>
      CleanReply(rt, PruneDoc(db, a.domain, a.doc), a.domain, a.reply.value.entities)
  }

  ghost predicate CleanRun(rt: Runtime, db: Db, actions: seq<Action>)
    decreases |actions|
  {
    actions == [] || (CleanAction(rt, db, actions[0]) && CleanRun(rt, Apply(rt, db, actions[0]), actions[1..]))
  }

  lemma ApplyExact(rt: Runtime, db: Db, a: Action)
    requires Sound(rt, db) && Exact(db) && OneSpelling(db) && CleanAction(rt, db, a)
    ensures Exact(Apply(rt, db, a)) && OneSpelling(Apply(rt, db, a))
  {
    hide Sound, RemoveDomain, PruneDoc, StoreReply, Rows, CleanReply;
    match a
    case Capture(_, _) =>
    case SetAlias(_, _) =>
    case DeleteDomain(domain) => RemoveDomainExact(db, domain);
    case DeleteDoc(domain, doc) => PruneExact(db, domain, doc);
    case Extract(domain, doc, text, model, reply, now) =>
      if Trim(PySpace, text) != "" && model.Some? {
        PruneExact(db, domain, doc);
        if reply.Some? {
          ExtractedExact(rt, db, domain, doc, reply.value);
        }
      }
  }

  lemma {:induction false} RunKeepsExact(rt: Runtime, db: Db, actions: seq<Action>)
    requires Sound(rt, db) && Exact(db) && OneSpelling(db) && CleanRun(rt, db, actions)
    ensures Exact(Run(rt, db, actions)) && OneSpelling(Run(rt, db, actions))
    decreases |actions|
  {
    hide Apply, Sound, Exact, OneSpelling, CleanAction;
    if actions != [] {
      ApplyKeeps(rt, db, actions[0]);
      ApplyExact(rt, db, actions[0]);
      RunKeepsExact(rt, Apply(rt, db, actions[0]), actions[1..]);
    }
  }

  /** MAIN: after any run whose replies give each entity once and in the stored spelling, every
      stored count is exactly the number of mention rows. */
  lemma RunIsExact(rt: Runtime, actions: seq<Action>)
    requires CleanRun(rt, EMPTY_DB, actions)
    ensures Exact(Run(rt, EMPTY_DB, actions)) && OneSpelling(Run(rt, EMPTY_DB, actions))
  {
    EmptyIsSound(rt);
    RunKeepsExact(rt, EMPTY_DB, actions);
  }

  // ---------- Extracting again ----------

  /** What the reply adds: entity rows, ids mentioned, names and edges. None of it depends on the graph. */
  function AcceptedKeys(
    rt: Runtime, aliases: map<AliasKey, string>, domain: string, es: seq<RawEntity>): set<EntityKey> {
    set i | 0 <= i < |es| && Accept(rt, aliases, domain, es[i]).Some? :: Accept(rt, aliases, domain, es[i]).value.key
  }

  function AcceptedMentions(
    rt: Runtime, aliases: map<AliasKey, string>, domain: string, doc: string, es: seq<RawEntity>): set<Mention> {
    set i | 0 <= i < |es| && Accept(rt, aliases, domain, es[i]).Some? ::
      Mention(domain, doc, Accept(rt, aliases, domain, es[i]).value.id)
  }

  function AcceptedEdges(rt: Runtime, domain: string, names: Names, rs: seq<RawRelation>): set<EdgeKey> {
    set i | 0 <= i < |rs| && AcceptRelation(rt, domain, names, rs[i]).Some? ::
      AcceptRelation(rt, domain, names, rs[i]).value
  }

  lemma {:induction false} EntityStepsShape(rt: Runtime, domain: string, doc: string, w: Work, es: seq<RawEntity>)
    ensures
      var t := EntitySteps(rt, domain, doc, w, es);
      && t.db == w.db.(entities := t.db.entities, mentions := t.db.mentions)
      && t.db.entities.Keys == w.db.entities.Keys + AcceptedKeys(rt, w.db.aliases, domain, es)
      && t.db.mentions == w.db.mentions + AcceptedMentions(rt, w.db.aliases, domain, doc, es)
    decreases |es|
  {
    hide Accept;
    if es != [] {
      var next := EntityStep(rt, domain, doc, w, es[0]);
      EntityStepsShape(rt, domain, doc, next, es[1..]);
      AcceptedUnfold(rt, w.db.aliases, domain, doc, es);
    }
  }

  lemma AcceptedUnfold(rt: Runtime, aliases: map<AliasKey, string>, domain: string, doc: string, es: seq<RawEntity>)
    requires es != []
    ensures
      var a := Accept(rt, aliases, domain, es[0]);
      && AcceptedKeys(rt, aliases, domain, es) ==
            (if a.Some? then {a.value.key} else {}) + AcceptedKeys(rt, aliases, domain, es[1..])
      && AcceptedMentions(rt, aliases, domain, doc, es) ==
         (if a.Some? then {Mention(domain, doc, a.value.id)} else {})
           + AcceptedMentions(rt, aliases, domain, doc, es[1..])
  {
    hide Accept;
    var keys, rest := AcceptedKeys(rt, aliases, domain, es), AcceptedKeys(rt, aliases, domain, es[1..]);
    var ms, mrest := AcceptedMentions(rt, aliases, domain, doc, es),
      AcceptedMentions(rt, aliases, domain, doc, es[1..]);
    assert forall i :: 0 <= i < |es[1..]| ==> es[1..][i] == es[i + 1];
    forall k | k in rest ensures k in keys {
      var i :| 0 <= i < |es[1..]| && Accept(rt, aliases, domain, es[1..][i]).Some?
        && Accept(rt, aliases, domain, es[1..][i]).value.key == k;
      assert Accept(rt, aliases, domain, es[i + 1]).value.key == k;
    }
    forall m | m in mrest ensures m in ms {
      var i :| 0 <= i < |es[1..]| && Accept(rt, aliases, domain, es[1..][i]).Some?
        && Mention(domain, doc, Accept(rt, aliases, domain, es[1..][i]).value.id) == m;
      assert Accept(rt, aliases, domain, es[i + 1]).Some?;
    }
    forall k | k in keys
      ensures k in rest
          || (Accept(rt, aliases, domain, es[0]).Some? && k == Accept(rt, aliases, domain, es[0]).value.key)
    {
      var i :| 0 <= i < |es| && Accept(rt, aliases, domain, es[i]).Some?
        && Accept(rt, aliases, domain, es[i]).value.key == k;
      if i > 0 { assert es[1..][i - 1] == es[i]; }
    }
    forall m | m in ms
      ensures m in mrest
          || (Accept(rt, aliases, domain, es[0]).Some?
                && m == Mention(domain, doc, Accept(rt, aliases, domain, es[0]).value.id))
    {
      var i :| 0 <= i < |es| && Accept(rt, aliases, domain, es[i]).Some?
        && Mention(domain, doc, Accept(rt, aliases, domain, es[i]).value.id) == m;
      if i > 0 { assert es[1..][i - 1] == es[i]; }
    }
  }

  /** The names a reply defines do not depend on the graph it is stored into. */
  lemma {:induction false} NamesAgree(rt: Runtime, domain: string, doc: string, w: Work, v: Work, es: seq<RawEntity>)
    requires w.names == v.names && w.db.aliases == v.db.aliases
    ensures EntitySteps(rt, domain, doc, w, es).names == EntitySteps(rt, domain, doc, v, es).names
    decreases |es|
  {
    hide Accept;
    if es != [] {
      NamesAgree(rt, domain, doc, EntityStep(rt, domain, doc, w, es[0]), EntityStep(rt, domain, doc, v, es[0]),
        es[1..]);
    }
  }

  lemma {:induction false} RelationStepsShape(
    rt: Runtime, domain: string, doc: string, names: Names, w: EdgeWork, rs: seq<RawRelation>)
    ensures RelationSteps(rt, domain, doc, names, w, rs).edges.Keys ==
        w.edges.Keys + AcceptedEdges(rt, domain, names, rs)
    decreases |rs|
  {
    hide AcceptRelation;
    if rs != [] {
      RelationStepsShape(rt, domain, doc, names, RelationStep(rt, domain, doc, names, w, rs[0]), rs[1..]);
      AcceptedEdgesUnfold(rt, domain, names, rs);
    }
  }

  lemma AcceptedEdgesUnfold(rt: Runtime, domain: string, names: Names, rs: seq<RawRelation>)
    requires rs != []
    ensures
      var a := AcceptRelation(rt, domain, names, rs[0]);
      AcceptedEdges(rt, domain, names, rs) ==
        (if a.Some? then {a.value} else {}) + AcceptedEdges(rt, domain, names, rs[1..])
  {
    hide AcceptRelation;
    var keys, rest := AcceptedEdges(rt, domain, names, rs), AcceptedEdges(rt, domain, names, rs[1..]);
    forall k | k in rest ensures k in keys {
      var i :| 0 <= i < |rs[1..]| && AcceptRelation(rt, domain, names, rs[1..][i]).Some?
        && AcceptRelation(rt, domain, names, rs[1..][i]).value == k;
      assert rs[1..][i] == rs[i + 1];
    }
    forall k | k in keys
      ensures k in rest
          || (AcceptRelation(rt, domain, names, rs[0]).Some? && k == AcceptRelation(rt, domain, names, rs[0]).value)
    {
      var i :| 0 <= i < |rs| && AcceptRelation(rt, domain, names, rs[i]).Some?
        && AcceptRelation(rt, domain, names, rs[i]).value == k;
      if i > 0 { assert rs[1..][i - 1] == rs[i]; }
    }
  }

  /** The same entity rows with the same ids, the same mentions and the same edges; counts, weights
      and evidence may differ. */
  ghost predicate SameShape(db: Db, t: Db) {
    && db.entities.Keys == t.entities.Keys
    && (forall k :: k in db.entities ==> db.entities[k].id == t.entities[k].id)
    && db.mentions == t.mentions
    && db.edges.Keys == t.edges.Keys
  }

  /** What a reply adds to a graph it is stored into. */
  lemma StoreReplyShape(rt: Runtime, db: Db, domain: string, doc: string, reply: Reply, names: Names)
    requires names == EntitySteps(rt, domain, doc, Work(db, map[], 0), reply.entities).names
    ensures
      var t := StoreReply(rt, db, domain, doc, reply).0;
      && t.aliases == db.aliases
      && t.entities.Keys == db.entities.Keys + AcceptedKeys(rt, db.aliases, domain, reply.entities)
      && t.mentions == db.mentions + AcceptedMentions(rt, db.aliases, domain, doc, reply.entities)
      && t.edges.Keys == db.edges.Keys + AcceptedEdges(rt, domain, names, reply.relations)
  {
    hide AcceptedKeys;
    hide AcceptedMentions;
    hide AcceptedEdges;
    var w := EntitySteps(rt, domain, doc, Work(db, map[], 0), reply.entities);
    EntityStepsShape(rt, domain, doc, Work(db, map[], 0), reply.entities);
    RelationStepsShape(rt, domain, doc, w.names, EdgeWork(w.db.edges, 0), reply.relations);
  }

  /** Pruning the document again takes away nothing that was there before the reply was stored:
      integrity is what keeps those rows and edges mentioned from elsewhere. */
  lemma PruneAgain(rt: Runtime, base: Db, t: Db, domain: string, doc: string)
    requires Sound(rt, base)
    requires base.mentions == WithoutDoc(base.mentions, domain, doc)
    requires t.mentions >= base.mentions && WithoutDoc(t.mentions, domain, doc) == base.mentions
    requires t.entities.Keys >= base.entities.Keys && t.edges.Keys >= base.edges.Keys
    requires forall k :: k in base.entities ==> t.entities[k].id == base.entities[k].id
    ensures PruneDoc(t, domain, doc).mentions == base.mentions
    ensures base.entities.Keys <= PruneDoc(t, domain, doc).entities.Keys <= t.entities.Keys
    ensures base.edges.Keys <= PruneDoc(t, domain, doc).edges.Keys <= t.edges.Keys
  {
    hide Rows;
    hide Less;
    hide EntityId;
    var p := PruneDoc(t, domain, doc);
    forall k | k in base.entities ensures k in p.entities {
      assert EntityOk(rt, base, k);
      RowsPositive(base.mentions, k.domain, base.entities[k].id);
    }
    forall e | e in base.edges ensures e in p.edges {
      assert EdgeOk(base, e);
      RowsPositive(base.mentions, e.domain, e.src);
      RowsPositive(base.mentions, e.domain, e.dst);
    }
  }

  lemma ExtractedTwice(rt: Runtime, db: Db, t: Db, domain: string, doc: string, reply: Reply)
    requires Sound(rt, db)
    requires SameGraph(t, Extracted(rt, db, domain, doc, reply)) && t.aliases == db.aliases
    ensures SameShape(t, Extracted(rt, t, domain, doc, reply))
  {
    hide StoreReply;
    hide Sound;
    hide Covered;
    hide AcceptedKeys;
    hide AcceptedEdges, EntitySteps, EntitiesOfDoc, Accept;
    var base, again := PruneDoc(db, domain, doc), PruneDoc(t, domain, doc);
    var names := EntitySteps(rt, domain, doc, Work(base, map[], 0), reply.entities).names;
    NamesAgree(rt, domain, doc, Work(base, map[], 0), Work(again, map[], 0), reply.entities);
    StoreReplyShape(rt, base, domain, doc, reply, names);
    StoreReplyShape(rt, again, domain, doc, reply, names);
    PruneSound(rt, db, domain, doc);
    StoreReplyKeeps(rt, base, domain, doc, reply);
    ExtractedKeeps(rt, db, domain, doc, reply);
    SameGraphKeeps(rt, Extracted(rt, db, domain, doc, reply), t);
    ExtractedKeeps(rt, t, domain, doc, reply);
    IdsDetermined(rt, t, Extracted(rt, t, domain, doc, reply));
    IdsDetermined(rt, base, t);
    assert WithoutDoc(t.mentions, domain, doc) == base.mentions;
    PruneAgain(rt, base, t, domain, doc);
  }

  lemma IdsDetermined(rt: Runtime, a: Db, b: Db)
    requires Sound(rt, a) && Sound(rt, b)
    ensures forall k :: k in a.entities && k in b.entities ==> a.entities[k].id == b.entities[k].id
  {
    forall k | k in a.entities && k in b.entities ensures a.entities[k].id == b.entities[k].id {
      assert EntityOk(rt, a, k) && EntityOk(rt, b, k);
    }
  }

  /** MAIN: extracting a document twice with the same outcome of the model call leaves the same
      entity rows, mentions and edges as extracting it once, although the second run prunes first. */
  lemma ExtractIsIdempotent(
    rt: Runtime, db: Db, domain: string, doc: string, text: string, model: Option<string>, reply: Option<Reply>,
    now: string, later: string)
    requires Sound(rt, db)
    ensures
      var once := ExtractOutcome(rt, db, domain, doc, text, model, reply, now).1;
      SameShape(once, ExtractOutcome(rt, once, domain, doc, text, model, reply, later).1)
  {
    hide StoreReply;
    hide Sound;
    hide Covered;
    hide Rows;
    var once := ExtractOutcome(rt, db, domain, doc, text, model, reply, now).1;
    if Trim(PySpace, text) != "" && model.Some? {
      if reply.None? {
        assert EntitiesOfDoc(once.mentions, domain, doc) == {};
        assert WithoutDoc(once.mentions, domain, doc) == once.mentions;
        RecountNothing(once.entities, domain, once.mentions);
        DropNoEdges(once.edges, domain, once.mentions);
      } else {
        StoreReplyKeepsAliases(rt, PruneDoc(db, domain, doc), domain, doc, reply.value);
        ExtractedTwice(rt, db, once, domain, doc, reply.value);
      }
    }
  }

  lemma StoreReplyKeepsAliases(rt: Runtime, db: Db, domain: string, doc: string, reply: Reply)
    ensures StoreReply(rt, db, domain, doc, reply).0.aliases == db.aliases
  {
    EntityStepsShape(rt, domain, doc, Work(db, map[], 0), reply.entities);
  }
}
