/** Imports among the other operations of a store: when the imported domain is sound, that it can
    be exported again, that copies of copies are copies, and what every run with imports keeps. */
module BundleRuns {
  import opened Options
  import opened Text
  import opened GraphStore
  import opened GraphIntegrity
  import opened Bundle
  import opened BundleRoundTrip

  // ---------- Is the imported domain sound? ----------

  /** A mention of the entity that an export carries and an import maps. */
  ghost predicate Carried(src: Db, d: string, id: string, m: Mention) {
    m in src.mentions && m.domain == d && m.entity == id && m.doc in UserDocs(src, d) && m.doc != ""
  }

  /** Every named entity is mentioned by a user document. */
  ghost predicate Anchored(src: Db, d: string) {
    forall k :: k in src.entities && k.domain == d && k.name != "" ==>
      exists m :: Carried(src, d, src.entities[k].id, m)
  }

  ghost function Imported(rt: Runtime, install: Install, dst: Db, b: Bundle, override: string, ids: seq<string>): Db
    requires |b.docs| <= |ids|
  {
    ImportOutcome(rt, install, dst, b, override, ids).1
  }

  lemma ImportedEntityRow(
    rt: Runtime, install: Install, src: Db, dst: Db, d: string, b: Bundle, override: string, ids: seq<string>,
    t: string, k: EntityKey)
    requires Setting(rt, install, src, dst, d, b, override, ids, t)
    requires k in Imported(rt, install, dst, b, override, ids).entities && k.domain == t
    ensures
      var c := Imported(rt, install, dst, b, override, ids);
      k.name != "" && EntityKey(d, k.typ, k.name) in src.entities && c.entities[k].id == EntityId(rt, t, k.typ, k.name)
  {
    hide SoundIn, Lawful, ImportOutcome, EntitiesAfter, IsExport, ValidDomain, TargetOf, TargetEmpty, EntityId;
    ImportSucceeds(rt, install, src, dst, d, b, override, ids, t);
    ImportedEntity(rt, install, src, dst, d, b, t, Imported(rt, install, dst, b, override, ids), k);
  }

  lemma EntityHasRow(
    rt: Runtime, install: Install, src: Db, dst: Db, d: string, b: Bundle, override: string, ids: seq<string>,
    t: string, k: EntityKey)
    requires Setting(rt, install, src, dst, d, b, override, ids, t)
    requires k in src.entities && k.domain == d && k.name != ""
    ensures
      var c := Imported(rt, install, dst, b, override, ids);
      var idMap := EntityRenaming(rt, dst, b, t);
      && k.(domain := t) in c.entities && c.entities[k.(domain := t)].id == EntityId(rt, t, k.typ, k.name)
      && src.entities[k].id in idMap && idMap[src.entities[k].id] == EntityId(rt, t, k.typ, k.name)
  {
    hide SoundIn, Lawful, ImportOutcome, EntitiesAfter, IsExport, ValidDomain, TargetOf, TargetEmpty, EntityId;
    ImportSucceeds(rt, install, src, dst, d, b, override, ids, t);
    EntityIsRenamed(rt, install, src, dst, d, b, t, k);
    ImportedEntityRow(rt, install, src, dst, d, b, override, ids, t, k.(domain := t));
  }

  /** A carried mention of an entity mentions its copy. */
  lemma CarriedMentions(
    rt: Runtime, install: Install, src: Db, dst: Db, d: string, b: Bundle, override: string, ids: seq<string>,
    t: string, k: EntityKey, m: Mention)
    requires Setting(rt, install, src, dst, d, b, override, ids, t)
    requires k in src.entities && k.domain == d && k.name != "" && Carried(src, d, src.entities[k].id, m)
    ensures Mentioned(Imported(rt, install, dst, b, override, ids), t, EntityId(rt, t, k.typ, k.name))
  {
    hide SoundIn, Lawful, ImportOutcome, EntitiesAfter, IsExport, ValidDomain, TargetOf, TargetEmpty, EntityId,
      MentionsAfter, DocMap, UserDocs;
    var c := Imported(rt, install, dst, b, override, ids);
    var docMap, idMap := DocRenaming(b, ids), EntityRenaming(rt, dst, b, t);
    ImportSucceeds(rt, install, src, dst, d, b, override, ids, t);
    EntityHasRow(rt, install, src, dst, d, b, override, ids, t, k);
    DocMapFacts(install, src, dst, d, b, t, ids);
    IdMapNotEmpty(rt, install, src, dst, d, b, t);
    MentionCarried(install, src, dst, d, b, t, docMap, idMap, c, m);
    var q :| q in c.mentions && MentionCopy(m, q, t, docMap, idMap);
  }

  /** A mention of the copy of an entity is the copy of a carried mention. */
  lemma MentionOfCopy(
    rt: Runtime, install: Install, src: Db, dst: Db, d: string, b: Bundle, override: string, ids: seq<string>,
    t: string, q: Mention)
    returns (m: Mention, k: EntityKey)
    requires Setting(rt, install, src, dst, d, b, override, ids, t)
    requires q in Imported(rt, install, dst, b, override, ids).mentions && q.domain == t
    ensures k in src.entities && k.domain == d && k.name != "" && q.entity == EntityId(rt, t, k.typ, k.name)
    ensures Carried(src, d, src.entities[k].id, m)
    ensures m.doc in DocRenaming(b, ids) && q.doc == DocRenaming(b, ids)[m.doc]
  {
    hide SoundIn, Lawful, ImportOutcome, EntitiesAfter, IsExport, ValidDomain, TargetOf, TargetEmpty, EntityId,
      MentionsAfter, DocMap, UserDocs;
    var c := Imported(rt, install, dst, b, override, ids);
    var docMap, idMap := DocRenaming(b, ids), EntityRenaming(rt, dst, b, t);
    ImportSucceeds(rt, install, src, dst, d, b, override, ids, t);
    DocMapFacts(install, src, dst, d, b, t, ids);
    MentionComesFrom(install, src, dst, d, b, t, docMap, idMap, c, q);
    m :| m in src.mentions && m.domain == d && MentionCopy(m, q, t, docMap, idMap);
    k := RenamedEntity(rt, install, src, dst, d, b, t, m.entity);
  }

  /** Both ends of an imported edge are copies of entities. */
  lemma EdgeEnd(
    rt: Runtime, install: Install, src: Db, dst: Db, d: string, b: Bundle, override: string, ids: seq<string>,
    t: string, g: EdgeKey)
    returns (j: EntityKey, k: EntityKey)
    requires Setting(rt, install, src, dst, d, b, override, ids, t)
    requires g in Imported(rt, install, dst, b, override, ids).edges && g.domain == t
    ensures j in src.entities && j.domain == d && j.name != "" && g.src == EntityId(rt, t, j.typ, j.name)
    ensures k in src.entities && k.domain == d && k.name != "" && g.dst == EntityId(rt, t, k.typ, k.name)
  {
    hide SoundIn, Lawful, ImportOutcome, EntitiesAfter, IsExport, ValidDomain, TargetOf, EntityId, EdgesAfter,
      ImportRelation, DocMap;
    ImportSucceeds(rt, install, src, dst, d, b, override, ids, t);
    var docMap, idMap := DocRenaming(b, ids), EntityRenaming(rt, dst, b, t);
    EdgesAfterLookup(dst.edges, t, docMap, idMap, b.edges, |b.edges|);
    var i :| 0 <= i < |b.edges| && MapEdge(t, idMap, b.edges[i]) == Some(g);
    j := RenamedEntity(rt, install, src, dst, d, b, t, b.edges[i].value.src);
    k := RenamedEntity(rt, install, src, dst, d, b, t, b.edges[i].value.dst);
  }

  /** The imported domain is sound if and only if every named entity of the exported one is mentioned
      by a user document. */
  lemma ImportSoundIff(
    rt: Runtime, install: Install, src: Db, dst: Db, d: string, b: Bundle, override: string, ids: seq<string>,
    t: string)
    requires Setting(rt, install, src, dst, d, b, override, ids, t)
    ensures SoundIn(rt, Imported(rt, install, dst, b, override, ids), t) <==> Anchored(src, d)
  {
    if Anchored(src, d) {
      AnchoredIsSound(rt, install, src, dst, d, b, override, ids, t);
    }
    if SoundIn(rt, Imported(rt, install, dst, b, override, ids), t) {
      SoundIsAnchored(rt, install, src, dst, d, b, override, ids, t);
    }
  }

  lemma CopyIsMentioned(
    rt: Runtime, install: Install, src: Db, dst: Db, d: string, b: Bundle, override: string, ids: seq<string>,
    t: string, k: EntityKey)
    requires Setting(rt, install, src, dst, d, b, override, ids, t) && Anchored(src, d)
    requires k in src.entities && k.domain == d && k.name != ""
    ensures Mentioned(Imported(rt, install, dst, b, override, ids), t, EntityId(rt, t, k.typ, k.name))
  {
    hide Setting, Imported, EntityId, Carried, Mentioned;
    var m :| Carried(src, d, src.entities[k].id, m);
    CarriedMentions(rt, install, src, dst, d, b, override, ids, t, k, m);
  }

  lemma AnchoredIsSound(
    rt: Runtime, install: Install, src: Db, dst: Db, d: string, b: Bundle, override: string, ids: seq<string>,
    t: string)
    requires Setting(rt, install, src, dst, d, b, override, ids, t) && Anchored(src, d)
    ensures SoundIn(rt, Imported(rt, install, dst, b, override, ids), t)
  {
    TypesOk(rt, install, src, dst, d, b, override, ids, t);
    hide Setting, Imported, EntityId, Anchored, Mentioned;
    var c := Imported(rt, install, dst, b, override, ids);
    forall k | k in c.entities && k.domain == t ensures EntityOk(rt, c, k) {
      ImportedEntityRow(rt, install, src, dst, d, b, override, ids, t, k);
      CopyIsMentioned(rt, install, src, dst, d, b, override, ids, t, EntityKey(d, k.typ, k.name));
    }
    forall q | q in c.mentions && q.domain == t ensures HasRow(c, t, q.entity) {
      var m, k := MentionOfCopy(rt, install, src, dst, d, b, override, ids, t, q);
      EntityHasRow(rt, install, src, dst, d, b, override, ids, t, k);
    }
    forall g | g in c.edges && g.domain == t ensures EdgeOk(c, g) {
      var j, k := EdgeEnd(rt, install, src, dst, d, b, override, ids, t, g);
      CopyIsMentioned(rt, install, src, dst, d, b, override, ids, t, j);
      CopyIsMentioned(rt, install, src, dst, d, b, override, ids, t, k);
    }
  }

  lemma TypesOk(
    rt: Runtime, install: Install, src: Db, dst: Db, d: string, b: Bundle, override: string, ids: seq<string>,
    t: string)
    requires Setting(rt, install, src, dst, d, b, override, ids, t)
    ensures forall k :: k in src.entities && k.domain == d ==> k.typ in ENTITY_TYPES
  {
    forall k | k in src.entities && k.domain == d ensures k.typ in ENTITY_TYPES {
      assert EntityOk(rt, src, k);
    }
  }

  lemma SoundIsAnchored(
    rt: Runtime, install: Install, src: Db, dst: Db, d: string, b: Bundle, override: string, ids: seq<string>,
    t: string)
    requires Setting(rt, install, src, dst, d, b, override, ids, t)
    requires SoundIn(rt, Imported(rt, install, dst, b, override, ids), t)
    ensures Anchored(src, d)
  {
    TypesOk(rt, install, src, dst, d, b, override, ids, t);
    SourceIds(rt, src, d);
    assert Lawful(rt);
    hide Setting, Imported, EntityId, Carried, Lawful;
    var c := Imported(rt, install, dst, b, override, ids);
    forall k | k in src.entities && k.domain == d && k.name != ""
      ensures exists m :: Carried(src, d, src.entities[k].id, m)
    {
      EntityHasRow(rt, install, src, dst, d, b, override, ids, t, k);
      assert EntityOk(rt, c, k.(domain := t));
      var q :| q in c.mentions && q.domain == t && q.entity == EntityId(rt, t, k.typ, k.name);
      var m, j := MentionOfCopy(rt, install, src, dst, d, b, override, ids, t, q);
      IdParts(rt, t, j.typ, j.name, k.typ, k.name);
      IdParts(rt, d, j.typ, j.name, k.typ, k.name);
    }
  }

  lemma SourceIds(rt: Runtime, src: Db, d: string)
    requires SoundIn(rt, src, d)
    ensures forall k :: k in src.entities && k.domain == d ==> src.entities[k].id == EntityId(rt, d, k.typ, k.name)
  {
    forall k | k in src.entities && k.domain == d ensures src.entities[k].id == EntityId(rt, d, k.typ, k.name) {
      assert EntityOk(rt, src, k);
    }
  }

  // ---------- An imported domain can be exported again ----------

  lemma ImportedDocsAreUsers(
    rt: Runtime, install: Install, src: Db, dst: Db, d: string, b: Bundle, override: string, ids: seq<string>,
    t: string, x: string)
    requires Setting(rt, install, src, dst, d, b, override, ids, t)
    requires x in UserDocs(Imported(rt, install, dst, b, override, ids), t)
    ensures x != "" && |Imported(rt, install, dst, b, override, ids).docs[x].embedding| == install.dim
  {
    hide SoundIn, Lawful, ImportOutcome, EntitiesAfter, IsExport, ValidDomain, TargetOf, EntityId, MentionsAfter,
      EdgesAfter, AliasesAfter, DocMap,
         DocsAfter, TargetEmpty, NewDocRow;
    var c := Imported(rt, install, dst, b, override, ids);
    ImportSucceeds(rt, install, src, dst, d, b, override, ids, t);
    ImportedUserDocs(rt, install, src, dst, d, b, t, ids, c);
    ExportedDocs(install, src, d, b);
    var i :| 0 <= i < |b.docs| && ids[i] == x;
    ImportedDoc(t, b, i);
  }

  lemma ImportedMentionDoc(
    rt: Runtime, install: Install, src: Db, dst: Db, d: string, b: Bundle, override: string, ids: seq<string>,
    t: string, q: Mention)
    requires Setting(rt, install, src, dst, d, b, override, ids, t)
    requires q in Imported(rt, install, dst, b, override, ids).mentions && q.domain == t
    ensures q.doc in UserDocs(Imported(rt, install, dst, b, override, ids), t)
  {
    var m, k := MentionOfCopy(rt, install, src, dst, d, b, override, ids, t, q);
    hide SoundIn, Lawful, ImportOutcome, EntitiesAfter, IsExport, ValidDomain, TargetOf, EntityId, MentionsAfter,
      EdgesAfter, AliasesAfter, DocMap,
         DocsAfter, TargetEmpty, NewDocRow, Carried;
    var c := Imported(rt, install, dst, b, override, ids);
    ImportSucceeds(rt, install, src, dst, d, b, override, ids, t);
    ImportedUserDocs(rt, install, src, dst, d, b, t, ids, c);
    DocCarried(install, src, dst, d, b, t, ids, c, m.doc);
  }

  lemma ImportedAliasesNamed(
    rt: Runtime, install: Install, src: Db, dst: Db, d: string, b: Bundle, override: string, ids: seq<string>,
    t: string)
    requires Setting(rt, install, src, dst, d, b, override, ids, t)
    ensures AliasesAreNamed(Imported(rt, install, dst, b, override, ids), t)
  {
    hide SoundIn, Lawful, ImportOutcome, EntitiesAfter, IsExport, ValidDomain, TargetOf, EntityId, MentionsAfter,
      EdgesAfter, AliasesAfter, DocMap, DocsAfter;
    ImportSucceeds(rt, install, src, dst, d, b, override, ids, t);
    ExportedAliases(install, src, d, b);
    AliasesAfterLookup(dst.aliases, t, b.meta.value.aliases, |b.meta.value.aliases|);
  }

  lemma ImportedRelationsStand(
    rt: Runtime, install: Install, src: Db, dst: Db, d: string, b: Bundle, override: string, ids: seq<string>,
    t: string)
    requires Setting(rt, install, src, dst, d, b, override, ids, t)
    ensures RelationsStand(Imported(rt, install, dst, b, override, ids), t)
  {
    hide SoundIn, Lawful, ImportOutcome, EntitiesAfter, IsExport, ValidDomain, TargetOf, EntityId, MentionsAfter,
      EdgesAfter, AliasesAfter, DocMap,
         DocsAfter, ImportRelation, TargetEmpty;
    var c := Imported(rt, install, dst, b, override, ids);
    ImportSucceeds(rt, install, src, dst, d, b, override, ids, t);
    forall g | g in c.edges && g.domain == t ensures g.relation != "" && ImportRelation(g.relation) == g.relation {
      EdgeImported(dst, b, t, DocRenaming(b, ids), EntityRenaming(rt, dst, b, t), c, g);
    }
  }

  /** MAIN: whatever was exported, what the import leaves is exportable: what could be lost is lost
      the first time. */
  lemma ImportedIsExportable(
    rt: Runtime, install: Install, src: Db, dst: Db, d: string, b: Bundle, override: string, ids: seq<string>,
    t: string)
    requires Setting(rt, install, src, dst, d, b, override, ids, t)
    ensures Exportable(Imported(rt, install, dst, b, override, ids), t)
  {
    ImportedAliasesNamed(rt, install, src, dst, d, b, override, ids, t);
    ImportedRelationsStand(rt, install, src, dst, d, b, override, ids, t);
    hide Setting, Imported, ImportRelation, UserDocs, EntityId;
    var c := Imported(rt, install, dst, b, override, ids);
    if "" in UserDocs(c, t) {
      ImportedDocsAreUsers(rt, install, src, dst, d, b, override, ids, t, "");
    }
    forall q | q in c.mentions && q.domain == t ensures q.doc in UserDocs(c, t) {
      ImportedMentionDoc(rt, install, src, dst, d, b, override, ids, t, q);
    }
    forall k | k in c.entities && k.domain == t ensures k.name != "" {
      ImportedEntityRow(rt, install, src, dst, d, b, override, ids, t, k);
    }
  }

  // ---------- Copies of copies ----------

  ghost function Compose(m: map<string, string>, n: map<string, string>): map<string, string> {
    map x | x in m && m[x] in n :: n[m[x]]
  }

  lemma OneToOneCompose(m: map<string, string>, n: map<string, string>)
    requires OneToOne(m) && OneToOne(n) && m.Values == n.Keys
    ensures OneToOne(Compose(m, n)) && Compose(m, n).Keys == m.Keys && Compose(m, n).Values == n.Values
  {
    var mn := Compose(m, n);
    forall x | x in m ensures m[x] in n { assert m[x] in m.Values; }
    forall z | z in n.Values ensures z in mn.Values {
      var y :| y in n && n[y] == z;
      assert y in m.Values;
      var x :| x in m && m[x] == y;
      assert mn[x] == z;
    }
    forall x, y | x in mn && y in mn && mn[x] == mn[y] ensures x == y {
      assert m[x] == m[y];
    }
  }

  lemma DocsMatchTrans(
    a: Db, d: string, b: Db, t: string, c: Db, u: string, m: map<string, string>, n: map<string, string>)
    requires DocsMatch(a, d, b, t, m) && DocsMatch(b, t, c, u, n)
    ensures DocsMatch(a, d, c, u, Compose(m, n))
  {
    hide UserDocs, OneToOne;
    OneToOneCompose(m, n);
  }

  lemma EntitiesMatchTrans(
    a: Db, d: string, b: Db, t: string, c: Db, u: string, m: map<string, string>, n: map<string, string>)
    requires EntitiesMatch(a, d, b, t, m) && EntitiesMatch(b, t, c, u, n)
    ensures EntitiesMatch(a, d, c, u, Compose(m, n))
  {
    hide EntityIds, OneToOne;
    OneToOneCompose(m, n);
    forall k: EntityKey | k.domain == d
      ensures k in a.entities <==> k.(domain := u) in c.entities
      ensures k in a.entities && k.(domain := u) in c.entities && a.entities[k].id in m ==>
        c.entities[k.(domain := u)].id == Compose(m, n)[a.entities[k].id]
    {
      var j := k.(domain := t);
      assert j.(domain := u) == k.(domain := u);
    }
  }

  lemma MentionsMatchTrans(
    a: Db, d: string, b: Db, t: string, c: Db, u: string,
    dm: map<string, string>, dn: map<string, string>, m: map<string, string>, n: map<string, string>)
    requires MentionsMatch(a, d, b, t, dm, m) && MentionsMatch(b, t, c, u, dn, n)
    ensures MentionsMatch(a, d, c, u, Compose(dm, dn), Compose(m, n))
  {
    forall x | x in a.mentions && x.domain == d
      ensures exists z :: z in c.mentions && MentionCopy(x, z, u, Compose(dm, dn), Compose(m, n))
    {
      var y :| y in b.mentions && MentionCopy(x, y, t, dm, m);
      var z :| z in c.mentions && MentionCopy(y, z, u, dn, n);
      assert MentionCopy(x, z, u, Compose(dm, dn), Compose(m, n));
    }
    forall z | z in c.mentions && z.domain == u
      ensures exists x :: x in a.mentions && x.domain == d && MentionCopy(x, z, u, Compose(dm, dn), Compose(m, n))
    {
      var y :| y in b.mentions && y.domain == t && MentionCopy(y, z, u, dn, n);
      var x :| x in a.mentions && x.domain == d && MentionCopy(x, y, t, dm, m);
      assert MentionCopy(x, z, u, Compose(dm, dn), Compose(m, n));
    }
  }

  lemma EdgesMatchTrans(
    a: Db, d: string, b: Db, t: string, c: Db, u: string, m: map<string, string>, n: map<string, string>)
    requires EdgesMatch(a, d, b, t, m) && EdgesMatch(b, t, c, u, n)
    ensures EdgesMatch(a, d, c, u, Compose(m, n))
  {
    forall x | x in a.edges && x.domain == d ensures exists z :: z in c.edges && EdgeCopy(x, z, u, Compose(m, n)) {
      var y :| y in b.edges && EdgeCopy(x, y, t, m);
      var z :| z in c.edges && EdgeCopy(y, z, u, n);
      assert EdgeCopy(x, z, u, Compose(m, n));
    }
    forall z | z in c.edges && z.domain == u
      ensures exists x :: x in a.edges && x.domain == d && EdgeCopy(x, z, u, Compose(m, n))
    {
      var y :| y in b.edges && y.domain == t && EdgeCopy(y, z, u, n);
      var x :| x in a.edges && x.domain == d && EdgeCopy(x, y, t, m);
      assert EdgeCopy(x, z, u, Compose(m, n));
    }
  }

  lemma FaithfulTrans(
    a: Db, d: string, b: Db, t: string, c: Db, u: string,
    dm: map<string, string>, dn: map<string, string>, m: map<string, string>, n: map<string, string>)
    requires Faithful(a, d, b, t, dm, m) && Faithful(b, t, c, u, dn, n)
    ensures Faithful(a, d, c, u, Compose(dm, dn), Compose(m, n))
  {
    hide DocsMatch, EntitiesMatch, MentionsMatch, EdgesMatch, CountsExactIn;
    DocsMatchTrans(a, d, b, t, c, u, dm, dn);
    EntitiesMatchTrans(a, d, b, t, c, u, m, n);
    MentionsMatchTrans(a, d, b, t, c, u, dm, dn, m, n);
    EdgesMatchTrans(a, d, b, t, c, u, m, n);
  }

  lemma ExportableIsAnchored(rt: Runtime, src: Db, d: string)
    requires SoundIn(rt, src, d) && Exportable(src, d)
    ensures Anchored(src, d)
  {
    hide EntityId, UserDocs, ImportRelation;
    forall k | k in src.entities && k.domain == d && k.name != ""
      ensures exists m :: Carried(src, d, src.entities[k].id, m)
    {
      assert EntityOk(rt, src, k);
      var m :| m in src.mentions && m.domain == d && m.entity == src.entities[k].id;
      assert Carried(src, d, src.entities[k].id, m);
    }
  }

  /** The second store and bundle of a chain: everything `Setting` asks but soundness and embeddings,
      which the first import has established. */
  ghost predicate NextHop(
    rt: Runtime, install: Install, mid: Db, dst: Db, t: string, b: Bundle, override: string, ids: seq<string>,
    u: string) {
    && IsExport(install, mid, t, b)
    && u == TargetOf(override, b.manifest.value) && ValidDomain(u)
    && TargetEmpty(dst, u) && FreshIds(dst, u, ids, |b.docs|)
  }

  /** MAIN: exporting the copy and importing it somewhere else gives a copy of the original. */
  lemma RoundTripsCompose(
    rt: Runtime, install: Install, src: Db, mid: Db, dst: Db, d: string, t: string, u: string,
    b: Bundle, override: string, ids: seq<string>, b2: Bundle, override2: string, ids2: seq<string>)
    requires Setting(rt, install, src, mid, d, b, override, ids, t) && Exportable(src, d)
    requires NextHop(rt, install, Imported(rt, install, mid, b, override, ids), dst, t, b2, override2, ids2, u)
    ensures
      var copy := Imported(rt, install, mid, b, override, ids);
      && Setting(rt, install, copy, dst, t, b2, override2, ids2, u)
      && Faithful(copy, t, Imported(rt, install, dst, b2, override2, ids2), u, DocRenaming(b2, ids2),
            EntityRenaming(rt, dst, b2, u))
      && Faithful(src, d, Imported(rt, install, dst, b2, override2, ids2), u,
                  Compose(DocRenaming(b, ids), DocRenaming(b2, ids2)),
                    Compose(EntityRenaming(rt, mid, b, t), EntityRenaming(rt, dst, b2, u)))
  {
    var copy := Imported(rt, install, mid, b, override, ids);
    ExportableIsAnchored(rt, src, d);
    NextSetting(rt, install, src, mid, dst, d, t, u, b, override, ids, b2, override2, ids2);
    ImportedIsExportable(rt, install, src, mid, d, b, override, ids, t);
    ImportFaithfulIff(rt, install, src, mid, d, b, override, ids, t);
    ImportFaithfulIff(rt, install, copy, dst, t, b2, override2, ids2, u);
    hide Setting, NextHop, Faithful, Exportable, Compose, ImportOutcome;
    FaithfulTrans(src, d, copy, t, Imported(rt, install, dst, b2, override2, ids2), u,
                  DocRenaming(b, ids), DocRenaming(b2, ids2), EntityRenaming(rt, mid, b, t),
                    EntityRenaming(rt, dst, b2, u));
  }

  lemma NextSetting(
    rt: Runtime, install: Install, src: Db, mid: Db, dst: Db, d: string, t: string, u: string,
    b: Bundle, override: string, ids: seq<string>, b2: Bundle, override2: string, ids2: seq<string>)
    requires Setting(rt, install, src, mid, d, b, override, ids, t) && Anchored(src, d)
    requires NextHop(rt, install, Imported(rt, install, mid, b, override, ids), dst, t, b2, override2, ids2, u)
    ensures Setting(rt, install, Imported(rt, install, mid, b, override, ids), dst, t, b2, override2, ids2, u)
  {
    AnchoredIsSound(rt, install, src, mid, d, b, override, ids, t);
    assert Lawful(rt);
    var copy := Imported(rt, install, mid, b, override, ids);
    forall x | x in UserDocs(copy, t) ensures |copy.docs[x].embedding| == install.dim {
      ImportedDocsAreUsers(rt, install, src, mid, d, b, override, ids, t, x);
    }
    hide SoundIn, Lawful, Imported, IsExport, ValidDomain, TargetOf, TargetEmpty, FreshIds, UserDocs;
  }

  // ---------- Any import of any bundle ----------

  /** Entity row `i` of the bundle is stored under `key`. */
  ghost predicate Stored(t: string, rows: seq<Option<BundleEntity>>, i: int, key: EntityKey) {
    0 <= i < |rows| && GoodEntity(rows[i]) && key == NewKey(t, rows[i].value)
  }

  /** Rows that were there stay; the others are those of the bundle. */
  lemma {:induction false} EntitiesGrow(
    rt: Runtime, entities: Entities, t: string, rows: seq<Option<BundleEntity>>, k: nat)
    requires k <= |rows|
    ensures
      var after := EntitiesAfter(rt, entities, t, rows, k).entities;
      && (forall key :: key in entities ==> key in after && after[key] == entities[key])
      && (forall i :: 0 <= i < k && GoodEntity(rows[i]) ==> NewKey(t, rows[i].value) in after)
      && (forall key :: key in after && key !in entities ==>
            after[key] == EntityRow(EntityId(rt, t, key.typ, key.name), 0) && exists i :: Stored(t, rows, i, key))
    decreases k
  {
    hide EntityId, Upper;
    if k > 0 {
      EntitiesGrow(rt, entities, t, rows, k - 1);
      if GoodEntity(rows[k - 1]) {
        assert Stored(t, rows, k - 1, NewKey(t, rows[k - 1].value));
      }
    }
  }

  /** The import's id of a bundle's entity is the id of one of its rows. */
  ghost predicate IdOfRow(rt: Runtime, t: string, rows: seq<Option<BundleEntity>>, id: string) {
    exists i :: 0 <= i < |rows| && GoodEntity(rows[i]) && id == NewId(rt, t, rows[i].value)
  }

  lemma {:induction false} IdIsOfRow(
    rt: Runtime, entities: Entities, t: string, rows: seq<Option<BundleEntity>>, k: nat, id: string)
    requires k <= |rows| && id in EntitiesAfter(rt, entities, t, rows, k).idMap
    ensures IdOfRow(rt, t, rows, EntitiesAfter(rt, entities, t, rows, k).idMap[id])
    decreases k
  {
    hide NewId, NewKey, PutEntity, Upper;
    var before, m := EntitiesAfter(rt, entities, t, rows, k - 1).idMap, EntitiesAfter(rt, entities, t, rows, k).idMap;
    if id in before && before[id] == m[id] {
      IdIsOfRow(rt, entities, t, rows, k - 1, id);
    } else {
      assert GoodEntity(rows[k - 1]) && m[id] == NewId(rt, t, rows[k - 1].value);
    }
  }

  /** The target mentions the id already, or a mention row of the bundle brings a mention of it. */
  ghost predicate WillBeMentioned(rt: Runtime, db: Db, b: Bundle, t: string, ids: seq<string>, id: string)
    requires |b.docs| <= |ids|
  {
    || Mentioned(db, t, id)
    || exists j :: 0 <= j < |b.mentions|
          && MentionRowBrings(b, t, DocRenaming(b, ids), EntityRenaming(rt, db, b, t), j, id)
  }

  ghost predicate MentionRowBrings(
    b: Bundle, t: string, docMap: map<string, string>, idMap: map<string, string>, j: int, id: string)
  {
    && 0 <= j < |b.mentions|
    && MapMention(t, docMap, idMap, b.mentions[j]).Some?
    && MapMention(t, docMap, idMap, b.mentions[j]).value.entity == id
  }

  /** Every entity row that the import accepts has a mention. */
  ghost predicate RowsMentioned(rt: Runtime, db: Db, b: Bundle, t: string, ids: seq<string>)
    requires |b.docs| <= |ids|
  {
    forall i :: 0 <= i < |b.entities| && GoodEntity(b.entities[i]) ==>
      WillBeMentioned(rt, db, b, t, ids, NewId(rt, t, b.entities[i].value))
  }

  lemma MentionedAfter(rt: Runtime, db: Db, b: Bundle, t: string, ids: seq<string>, c: Db, id: string)
    requires |b.docs| <= |ids|
    requires c.mentions ==
        MentionsAfter(db.mentions, t, DocRenaming(b, ids), EntityRenaming(rt, db, b, t), b.mentions, |b.mentions|).0
    ensures Mentioned(c, t, id) <==> WillBeMentioned(rt, db, b, t, ids, id)
  {
    hide MentionsAfter, EntitiesAfter, DocMap;
    var docMap, idMap := DocRenaming(b, ids), EntityRenaming(rt, db, b, t);
    MentionsAfterLookup(db.mentions, t, docMap, idMap, b.mentions, |b.mentions|);
    if m :| m in c.mentions && m.domain == t && m.entity == id {
      if m !in db.mentions {
        var j :| 0 <= j < |b.mentions| && MapMention(t, docMap, idMap, b.mentions[j]) == Some(m);
        assert MentionRowBrings(b, t, docMap, idMap, j, id);
      }
    }
    if j :| 0 <= j < |b.mentions| && MentionRowBrings(b, t, docMap, idMap, j, id) {
      assert MapMention(t, docMap, idMap, b.mentions[j]).value in c.mentions;
    }
  }

  /** The import as tables: the graph of `db` grown by the rows of `b`. */
  ghost predicate Grown(rt: Runtime, db: Db, b: Bundle, t: string, ids: seq<string>, c: Db)
    requires |b.docs| <= |ids|
  {
    var w := EntitiesAfter(rt, db.entities, t, b.entities, |b.entities|);
    && c.mentions == MentionsAfter(db.mentions, t, DocRenaming(b, ids), w.idMap, b.mentions, |b.mentions|).0
    && c.entities == (if b.mentions == [] then w.entities else RecomputeCounts(w.entities, c.mentions, t))
    && c.edges == EdgesAfter(db.edges, t, DocRenaming(b, ids), w.idMap, b.edges, |b.edges|).edges
  }

  lemma ImportGrows(rt: Runtime, install: Install, db: Db, b: Bundle, override: string, ids: seq<string>)
    requires |b.docs| <= |ids| && ImportOutcome(rt, install, db, b, override, ids).0.Imported?
    ensures b.manifest.Some?
    ensures Grown(rt, db, b, TargetOf(override, b.manifest.value), ids, Imported(rt, install, db, b, override, ids))
  {
    hide TargetOf, ValidDomain, DocsAfter, EntitiesAfter, MentionsAfter, EdgesAfter, AliasesAfter, SeedRow, DocMap,
         RecomputeCounts, RemoveDomain;
  }

  /** Every id that the import stores for a row has a row. */
  lemma GrownRow(rt: Runtime, db: Db, b: Bundle, t: string, ids: seq<string>, c: Db, id: string)
    requires |b.docs| <= |ids| && Sound(rt, db) && Grown(rt, db, b, t, ids, c) && IdOfRow(rt, t, b.entities, id)
    ensures HasRow(c, t, id)
  {
    hide EntitiesAfter, MentionsAfter, EdgesAfter, DocMap, EntityId, Upper;
    EntitiesGrow(rt, db.entities, t, b.entities, |b.entities|);
    var i :| 0 <= i < |b.entities| && GoodEntity(b.entities[i]) && id == NewId(rt, t, b.entities[i].value);
    var key := NewKey(t, b.entities[i].value);
    assert key in c.entities;
    if key in db.entities { assert EntityOk(rt, db, key); }
    assert c.entities[key].id == id;
  }

  lemma GrownEntities(rt: Runtime, db: Db, b: Bundle, t: string, ids: seq<string>, c: Db, k: EntityKey)
    requires |b.docs| <= |ids| && Sound(rt, db) && Grown(rt, db, b, t, ids, c) && RowsMentioned(rt, db, b, t, ids)
    requires k in c.entities
    ensures EntityOk(rt, c, k)
  {
    hide EntitiesAfter, MentionsAfter, EdgesAfter, DocMap, EntityId, Upper, WillBeMentioned;
    EntitiesGrow(rt, db.entities, t, b.entities, |b.entities|);
    if k in db.entities {
      assert EntityOk(rt, db, k);
      StillMentioned(rt, db, b, t, ids, c, k.domain, db.entities[k].id);
    } else {
      var i :| Stored(t, b.entities, i, k);
      MentionedAfter(rt, db, b, t, ids, c, NewId(rt, t, b.entities[i].value));
    }
  }

  lemma StillMentioned(rt: Runtime, db: Db, b: Bundle, t: string, ids: seq<string>, c: Db, domain: string, id: string)
    requires |b.docs| <= |ids| && Grown(rt, db, b, t, ids, c) && Mentioned(db, domain, id)
    ensures Mentioned(c, domain, id)
  {
    hide EntitiesAfter, MentionsAfter, EdgesAfter, DocMap;
    MentionsAfterLookup(db.mentions, t, DocRenaming(b, ids), EntityRenaming(rt, db, b, t), b.mentions, |b.mentions|);
    var m :| m in db.mentions && m.domain == domain && m.entity == id;
    assert m in c.mentions;
  }

  lemma GrownMention(rt: Runtime, db: Db, b: Bundle, t: string, ids: seq<string>, c: Db, m: Mention)
    requires |b.docs| <= |ids| && Sound(rt, db) && Grown(rt, db, b, t, ids, c) && m in c.mentions
    ensures HasRow(c, m.domain, m.entity)
  {
    var docMap, idMap := DocRenaming(b, ids), EntityRenaming(rt, db, b, t);
    MentionsAfterLookup(db.mentions, t, docMap, idMap, b.mentions, |b.mentions|);
    EntitiesGrow(rt, db.entities, t, b.entities, |b.entities|);
    hide EntitiesAfter, MentionsAfter, EdgesAfter, DocMap, EntityId, Upper, IdOfRow, Stored;
    if m in db.mentions {
      var k :| k in db.entities && k.domain == m.domain && db.entities[k].id == m.entity;
      assert k in c.entities;
    } else {
      var j :| 0 <= j < |b.mentions| && MapMention(t, docMap, idMap, b.mentions[j]) == Some(m);
      IdIsOfRow(rt, db.entities, t, b.entities, |b.entities|, b.mentions[j].value.entity);
      GrownRow(rt, db, b, t, ids, c, m.entity);
    }
  }

  lemma GrownEdge(rt: Runtime, db: Db, b: Bundle, t: string, ids: seq<string>, c: Db, e: EdgeKey)
    requires |b.docs| <= |ids| && Sound(rt, db) && Grown(rt, db, b, t, ids, c) && RowsMentioned(rt, db, b, t, ids)
    requires e in c.edges
    ensures EdgeOk(c, e)
  {
    var docMap, idMap := DocRenaming(b, ids), EntityRenaming(rt, db, b, t);
    EdgesAfterLookup(db.edges, t, docMap, idMap, b.edges, |b.edges|);
    hide EntitiesAfter, MentionsAfter, EdgesAfter, DocMap, NewId, Upper, WillBeMentioned, ImportRelation, Mentioned;
    if e in db.edges {
      assert EdgeOk(db, e);
      StillMentioned(rt, db, b, t, ids, c, e.domain, e.src);
      StillMentioned(rt, db, b, t, ids, c, e.domain, e.dst);
    } else {
      var j :| 0 <= j < |b.edges| && MapEdge(t, idMap, b.edges[j]) == Some(e);
      var from, to := b.edges[j].value.src, b.edges[j].value.dst;
      assert from in idMap && to in idMap && e.src == idMap[from] && e.dst == idMap[to];
      IdIsOfRow(rt, db.entities, t, b.entities, |b.entities|, from);
      IdIsOfRow(rt, db.entities, t, b.entities, |b.entities|, to);
      RowIsMentioned(rt, db, b, t, ids, c, e.src);
      RowIsMentioned(rt, db, b, t, ids, c, e.dst);
    }
  }

  lemma RowIsMentioned(rt: Runtime, db: Db, b: Bundle, t: string, ids: seq<string>, c: Db, id: string)
    requires |b.docs| <= |ids| && Grown(rt, db, b, t, ids, c) && RowsMentioned(rt, db, b, t, ids)
    requires IdOfRow(rt, t, b.entities, id)
    ensures Mentioned(c, t, id)
  {
    hide EntitiesAfter, MentionsAfter, EdgesAfter, DocMap, NewId, WillBeMentioned, Mentioned;
    MentionedAfter(rt, db, b, t, ids, c, id);
  }

  /** The grown graph is sound if and only if every row it took has a mention. */
  lemma GrownSoundIff(rt: Runtime, db: Db, b: Bundle, t: string, ids: seq<string>, c: Db)
    requires |b.docs| <= |ids| && Sound(rt, db) && Grown(rt, db, b, t, ids, c)
    ensures Sound(rt, c) <==> RowsMentioned(rt, db, b, t, ids)
  {
    if RowsMentioned(rt, db, b, t, ids) {
      hide Grown, RowsMentioned, EntityOk, HasRow, EdgeOk;
      forall k | k in c.entities ensures EntityOk(rt, c, k) { GrownEntities(rt, db, b, t, ids, c, k); }
      forall m | m in c.mentions ensures HasRow(c, m.domain, m.entity) { GrownMention(rt, db, b, t, ids, c, m); }
      forall e | e in c.edges ensures EdgeOk(c, e) { GrownEdge(rt, db, b, t, ids, c, e); }
    }
    if Sound(rt, c) {
      SoundRowsMentioned(rt, db, b, t, ids, c);
    }
  }

  lemma SoundRowsMentioned(rt: Runtime, db: Db, b: Bundle, t: string, ids: seq<string>, c: Db)
    requires |b.docs| <= |ids| && Sound(rt, c) && Grown(rt, db, b, t, ids, c)
    ensures RowsMentioned(rt, db, b, t, ids)
  {
    hide EntitiesAfter, MentionsAfter, EdgesAfter, DocMap, EntityId, Upper, WillBeMentioned, Mentioned;
    EntitiesGrow(rt, db.entities, t, b.entities, |b.entities|);
    forall i | 0 <= i < |b.entities| && GoodEntity(b.entities[i])
      ensures WillBeMentioned(rt, db, b, t, ids, NewId(rt, t, b.entities[i].value))
    {
      var key := NewKey(t, b.entities[i].value);
      assert EntityOk(rt, c, key);
      MentionedAfter(rt, db, b, t, ids, c, NewId(rt, t, b.entities[i].value));
    }
  }

  // ---------- Counts after any import ----------

  lemma {:induction false} SumGrows(entities: Entities, other: Entities, keys: set<EntityKey>, more: set<EntityKey>)
    requires keys <= entities.Keys && keys <= more <= other.Keys
    requires forall k :: k in keys ==> entities[k].mentions == other[k].mentions
    ensures Sum(entities, keys) <= Sum(other, more)
    decreases keys
  {
    if keys != {} {
      var k :| k in keys;
      SumWithout(entities, keys, k);
      SumWithout(other, more, k);
      SumGrows(entities, other, keys - {k}, more - {k});
    }
  }

  /** No new mentions of the id, and every row of it keeps its count. */
  lemma GrownCountsStay(db: Db, c: Db, d: string, id: string)
    requires CountsCover(db, d, id) && MentionsOf(c.mentions, d, id) == MentionsOf(db.mentions, d, id)
    requires forall k :: k in db.entities && k.domain == d ==> k in c.entities && c.entities[k] == db.entities[k]
    ensures CountsCover(c, d, id)
  {
    SumGrows(db.entities, c.entities, Spellings(db.entities, d, id), Spellings(c.entities, d, id));
  }

  /** Recomputed counts cover as soon as every mention has a row. */
  lemma ExactCovers(c: Db, d: string, id: string)
    requires forall m :: m in c.mentions && m.domain == d ==> HasRow(c, d, m.entity)
    requires CountsExactIn(c, d)
    ensures CountsCover(c, d, id)
  {
    hide Rows;
    if Rows(c.mentions, d, id) > 0 {
      RowsPositive(c.mentions, d, id);
      var m :| m in c.mentions && m.domain == d && m.entity == id;
      assert HasRow(c, d, m.entity);
      var k :| k in c.entities && k.domain == d && c.entities[k].id == id;
      SumWithout(c.entities, Spellings(c.entities, d, id), k);
    }
  }

  lemma GrownCovers(rt: Runtime, db: Db, b: Bundle, t: string, ids: seq<string>, c: Db, d: string, id: string)
    requires |b.docs| <= |ids| && Sound(rt, db) && Grown(rt, db, b, t, ids, c) && CountsCover(db, d, id)
    ensures CountsCover(c, d, id)
  {
    hide Sound, Grown, CountsCover, CountsExactIn, HasRow;
    if b.mentions != [] && d == t {
      forall m | m in c.mentions && m.domain == d
        ensures HasRow(c, d, m.entity)
      { GrownMention(rt, db, b, t, ids, c, m); }
      GrownExact(rt, db, b, t, ids, c);
      ExactCovers(c, d, id);
    } else {
      GrownElsewhere(rt, db, b, t, ids, c, d, id);
      GrownCountsStay(db, c, d, id);
    }
  }

  lemma GrownExact(rt: Runtime, db: Db, b: Bundle, t: string, ids: seq<string>, c: Db)
    requires |b.docs| <= |ids| && Grown(rt, db, b, t, ids, c) && b.mentions != []
    ensures CountsExactIn(c, t)
  {
    hide EntitiesAfter, MentionsAfter, EdgesAfter, DocMap, Rows;
  }

  lemma GrownElsewhere(rt: Runtime, db: Db, b: Bundle, t: string, ids: seq<string>, c: Db, d: string, id: string)
    requires |b.docs| <= |ids| && Grown(rt, db, b, t, ids, c) && (b.mentions == [] || d != t)
    ensures MentionsOf(c.mentions, d, id) == MentionsOf(db.mentions, d, id)
    ensures forall k :: k in db.entities && k.domain == d ==> k in c.entities && c.entities[k] == db.entities[k]
  {
    hide EntitiesAfter, MentionsAfter, EdgesAfter, DocMap, EntityId, Stored, Rows;
    EntitiesGrow(rt, db.entities, t, b.entities, |b.entities|);
    MentionsAfterLookup(db.mentions, t, DocRenaming(b, ids), EntityRenaming(rt, db, b, t), b.mentions, |b.mentions|);
    assert forall m: Mention :: m.domain == d ==> (m in c.mentions <==> m in db.mentions);
  }

  /** MAIN: any import of any bundle into any target, one that holds graph rows included, keeps the
      counts covered, and keeps integrity if and only if it is refused, early or with its rollback, or
      every entity row it accepts is mentioned, in the target already or by a mention row it maps. */
  lemma AnyImportKeepsIff(rt: Runtime, install: Install, db: Db, b: Bundle, override: string, ids: seq<string>)
    requires |b.docs| <= |ids| && Sound(rt, db) && Covered(db)
    ensures
      var (r, c) := ImportOutcome(rt, install, db, b, override, ids);
      && Covered(c)
      && (Sound(rt, c) <==>
            r.Refused? || (b.manifest.Some? && RowsMentioned(rt, db, b, TargetOf(override, b.manifest.value), ids)))
  {
    var (r, c) := ImportOutcome(rt, install, db, b, override, ids);
    if r.Refused? {
      RefusedKeeps(rt, install, db, b, override, ids);
    } else {
      ImportGrows(rt, install, db, b, override, ids);
      var t := TargetOf(override, b.manifest.value);
      hide ImportOutcome, Sound, Grown, RowsMentioned, CountsCover, TargetOf;
      GrownSoundIff(rt, db, b, t, ids, c);
      forall d, id ensures CountsCover(c, d, id) {
        assert CountsCover(db, d, id);
        GrownCovers(rt, db, b, t, ids, c, d, id);
      }
    }
  }

  /** A rollback takes a whole domain away. */
  lemma RefusedKeeps(rt: Runtime, install: Install, db: Db, b: Bundle, override: string, ids: seq<string>)
    requires |b.docs| <= |ids| && Sound(rt, db) && Covered(db)
    requires ImportOutcome(rt, install, db, b, override, ids).0.Refused?
    ensures Sound(rt, Imported(rt, install, db, b, override, ids))
        && Covered(Imported(rt, install, db, b, override, ids))
  {
    if Check(install, db, b, override).None? {
      var t, docs := RolledBack(rt, install, db, b, override, ids);
      hide ImportOutcome, Sound, Covered, RemoveDomain;
      DocsDoNotMatter(rt, db, docs);
      RemoveDomainKeeps(rt, db.(docs := docs), t);
    }
  }

  lemma RolledBack(rt: Runtime, install: Install, db: Db, b: Bundle, override: string, ids: seq<string>)
    returns (t: string, docs: map<string, DocRow>)
    requires |b.docs| <= |ids| && ImportOutcome(rt, install, db, b, override, ids).0.Refused?
    requires Check(install, db, b, override).None?
    ensures Imported(rt, install, db, b, override, ids) == RemoveDomain(db.(docs := docs), t)
  {
    CheckedParts(install, db, b, override);
    hide Check, TargetOf, ValidDomain, DocsAfter, EntitiesAfter, MentionsAfter, EdgesAfter, AliasesAfter, SeedRow,
      DocMap,
         RecomputeCounts, RemoveDomain;
    t := TargetOf(override, b.manifest.value);
    var seeded := PutDoc(db, SeedId(t), SeedRow(rt, t, b.meta.value.description));
    var bad := FirstBad(install.dim, b.docs);
    docs := DocsAfter(seeded.docs, t, b.docs, ids, bad - bad % BATCH);
  }

  lemma DocsDoNotMatter(rt: Runtime, db: Db, docs: map<string, DocRow>)
    requires Sound(rt, db) && Covered(db)
    ensures Sound(rt, db.(docs := docs)) && Covered(db.(docs := docs))
  {
    var c := db.(docs := docs);
    hide EntityId, Rows, Total;
    forall k | k in c.entities ensures EntityOk(rt, c, k) {
      assert EntityOk(rt, db, k);
      assert Mentioned(db, k.domain, db.entities[k].id) == Mentioned(c, k.domain, db.entities[k].id);
    }
    forall m | m in c.mentions ensures HasRow(c, m.domain, m.entity) { assert HasRow(db, m.domain, m.entity); }
    forall e | e in c.edges ensures EdgeOk(c, e) { assert EdgeOk(db, e); }
    forall d, id ensures CountsCover(c, d, id) { assert CountsCover(db, d, id); }
  }

  /** The rows of an exported anchored domain all have mentions. */
  lemma AnchoredRowsMentioned(
    rt: Runtime, install: Install, src: Db, dst: Db, d: string, b: Bundle, override: string, ids: seq<string>,
    t: string)
    requires Setting(rt, install, src, dst, d, b, override, ids, t) && Anchored(src, d)
    ensures RowsMentioned(rt, dst, b, t, ids)
  {
    AnchoredIsSound(rt, install, src, dst, d, b, override, ids, t);
    ImportSucceeds(rt, install, src, dst, d, b, override, ids, t);
    ImportGrows(rt, install, dst, b, override, ids);
    hide SoundIn, Lawful, ImportOutcome, EntitiesAfter, IsExport, ValidDomain, TargetOf, TargetEmpty, MentionsAfter,
         EdgesAfter, AliasesAfter, DocsAfter, EntityId, Upper, WillBeMentioned, DocMap;
    var c := Imported(rt, install, dst, b, override, ids);
    EntitiesGrow(rt, dst.entities, t, b.entities, |b.entities|);
    forall i | 0 <= i < |b.entities| && GoodEntity(b.entities[i])
      ensures WillBeMentioned(rt, dst, b, t, ids, NewId(rt, t, b.entities[i].value))
    {
      var key := NewKey(t, b.entities[i].value);
      assert key in c.entities && key.domain == t;
      RowOfSound(rt, c, t, key);
      MentionedAfter(rt, dst, b, t, ids, c, NewId(rt, t, b.entities[i].value));
    }
  }

  lemma RowOfSound(rt: Runtime, c: Db, t: string, key: EntityKey)
    requires SoundIn(rt, c, t) && key in c.entities && key.domain == t
    ensures Mentioned(c, t, EntityId(rt, t, key.typ, key.name))
  {
    assert EntityOk(rt, c, key);
  }

  // ---------- Runs with imports ----------

  /** An operation of the store, or the import of any bundle. */
  datatype Step =
    | Local(action: Action)
    | Import(install: Install, bundle: Bundle, override: string, ids: seq<string>)

  /** An import draws an id for each document, and is refused or brings a mention for every entity. */
  ghost predicate StepOk(rt: Runtime, db: Db, s: Step) {
    match s
    case Local(_) => true
    case Import(install, b, override, ids) =>
      && |b.docs| <= |ids|
      && (|| ImportOutcome(rt, install, db, b, override, ids).0.Refused?
          || (b.manifest.Some? && RowsMentioned(rt, db, b, TargetOf(override, b.manifest.value), ids)))
  }

  ghost function After(rt: Runtime, db: Db, s: Step): Db
    requires StepOk(rt, db, s)
  {
    match s
    case Local(a) => Apply(rt, db, a)
    case Import(install, b, override, ids) => Imported(rt, install, db, b, override, ids)
  }

  ghost predicate StepsOk(rt: Runtime, db: Db, steps: seq<Step>)
    decreases |steps|
  {
    steps == [] || (StepOk(rt, db, steps[0]) && StepsOk(rt, After(rt, db, steps[0]), steps[1..]))
  }

  ghost function RunSteps(rt: Runtime, db: Db, steps: seq<Step>): Db
    requires StepsOk(rt, db, steps)
    decreases |steps|
  {
    if steps == [] then db else RunSteps(rt, After(rt, db, steps[0]), steps[1..])
  }

  lemma {:induction false} StepsKeep(rt: Runtime, db: Db, steps: seq<Step>)
    requires StepsOk(rt, db, steps) && Sound(rt, db) && Covered(db)
    ensures Sound(rt, RunSteps(rt, db, steps)) && Covered(RunSteps(rt, db, steps))
    decreases |steps|
  {
    if steps != [] {
      hide Sound, Covered, StepOk, After;
      StepKeeps(rt, db, steps[0]);
      StepsKeep(rt, After(rt, db, steps[0]), steps[1..]);
    }
  }

  lemma StepKeeps(rt: Runtime, db: Db, s: Step)
    requires StepOk(rt, db, s) && Sound(rt, db) && Covered(db)
    ensures Sound(rt, After(rt, db, s)) && Covered(After(rt, db, s))
  {
    hide Sound, Covered, Apply, ImportOutcome, RowsMentioned, TargetOf;
    match s
    case Local(a) => ApplyKeeps(rt, db, a);
    case Import(install, b, override, ids) => AnyImportKeepsIff(rt, install, db, b, override, ids);
  }

  /** MAIN: integrity survives imports: after any run of captures, aliases, extractions, deletes and
      imports of any bundles, refused ones included, that bring a mention for every entity, every
      mention has an entity row, every entity row its own id and a mention, every edge joins mentioned
      entities and the counts cover the mentions. */
  lemma RunsWithImportsAreSound(rt: Runtime, steps: seq<Step>)
    requires StepsOk(rt, EMPTY_DB, steps)
    ensures Sound(rt, RunSteps(rt, EMPTY_DB, steps)) && Covered(RunSteps(rt, EMPTY_DB, steps))
  {
    EmptyIsSound(rt);
    StepsKeep(rt, EMPTY_DB, steps);
  }

  /** Imports of exported anchored domains into empty ones are steps of such runs. */
  lemma AnchoredStepOk(
    rt: Runtime, install: Install, src: Db, dst: Db, d: string, b: Bundle, override: string, ids: seq<string>,
    t: string)
    requires Setting(rt, install, src, dst, d, b, override, ids, t) && Anchored(src, d)
    ensures StepOk(rt, dst, Import(install, b, override, ids))
  {
    AnchoredRowsMentioned(rt, install, src, dst, d, b, override, ids, t);
    ImportSucceeds(rt, install, src, dst, d, b, override, ids, t);
    ImportGrows(rt, install, dst, b, override, ids);
    hide SoundIn, Lawful, ImportOutcome, IsExport, ValidDomain, TargetOf, TargetEmpty, RowsMentioned;
  }
}
