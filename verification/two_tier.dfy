/** Write-behind replication: SQLite takes the writes, a sync worker copies unsynced rows to
    pgvector, deletes go to both stores. The protocol is a step system over the document tables;
    the classes below run the same steps in place. */
module TwoTier {

  datatype Doc = Doc(id: string, domain: string, text: string, embedding: seq<real>, metadata: map<string, string>,
      sourceHash: string)

  /** A `docs` row of SQLite; rows stand in `doc_key` order. `synced` is "synced_at is not null". */
  datatype Row = Row(doc: Doc, synced: bool)

  // ---------- The SQLite table ----------

  function FindRow(rows: seq<Row>, id: string): (k: nat)
    ensures k <= |rows|
    ensures k < |rows| ==> rows[k].doc.id == id
    ensures forall i :: 0 <= i < k ==> rows[i].doc.id != id
  {
    if rows == [] || rows[0].doc.id == id then 0 else FindRow(rows[1..], id) + 1
  }

  /** Insert at the end, or update in place and forget the sync mark. */
  function PutRow(rows: seq<Row>, doc: Doc): seq<Row> {
    var k := FindRow(rows, doc.id);
    if k < |rows| then rows[k := Row(doc, false)] else rows + [Row(doc, false)]
  }

  function PutRows(rows: seq<Row>, docs: seq<Doc>): seq<Row> {
    if docs == [] then rows else PutRow(PutRows(rows, docs[..|docs| - 1]), docs[|docs| - 1])
  }

  /** The unsynced documents, oldest first. */
  function Pending(rows: seq<Row>): seq<Doc> {
    if rows == [] then []
    else (if rows[0].synced then [] else [rows[0].doc]) + Pending(rows[1..])
  }

  function Take<T>(s: seq<T>, n: nat): seq<T> {
    if n <= |s| then s[..n] else s
  }

  function Drop<T>(s: seq<T>, n: nat): seq<T> {
    if n <= |s| then s[n..] else []
  }

  function Ids(docs: seq<Doc>): set<string> {
    set d | d in docs :: d.id
  }

  function MarkRow(r: Row, ids: set<string>): Row {
    if r.doc.id in ids then r.(synced := true) else r
  }

  function MarkRows(rows: seq<Row>, ids: set<string>): seq<Row> {
    seq(|rows|, i requires 0 <= i < |rows| => MarkRow(rows[i], ids))
  }

  /** A delete request: one document of a domain, or a whole domain. */
  datatype Delete = OneDoc(domain: string, id: string) | WholeDomain(domain: string)

  predicate Covers(req: Delete, doc: Doc) {
    doc.domain == req.domain && (req.OneDoc? ==> doc.id == req.id)
  }

  function KeepRows(rows: seq<Row>, req: Delete): seq<Row> {
    if rows == [] then []
    else (if Covers(req, rows[0].doc) then [] else [rows[0]]) + KeepRows(rows[1..], req)
  }

  // ---------- The pgvector table ----------

  type Replica = map<string, Doc>

  function PutAll(pg: Replica, docs: seq<Doc>): Replica
    decreases |docs|
  {
    if docs == [] then pg else PutAll(pg[docs[0].id := docs[0]], docs[1..])
  }

  function KeepDocs(pg: Replica, req: Delete): Replica {
    map id | id in pg && !Covers(req, pg[id]) :: pg[id]
  }

  // ---------- Grouping by domain ----------

  /** `by_domain.setdefault(doc.domain, []).append(doc)`: groups keep first-occurrence order. */
  function AddToGroup(groups: seq<seq<Doc>>, doc: Doc): seq<seq<Doc>> {
    if groups == [] then [[doc]]
    else if groups[0] != [] && groups[0][0].domain == doc.domain then [groups[0] + [doc]] + groups[1..]
    else [groups[0]] + AddToGroup(groups[1..], doc)
  }

  function GroupByDomain(docs: seq<Doc>): seq<seq<Doc>> {
    if docs == [] then [] else AddToGroup(GroupByDomain(docs[..|docs| - 1]), docs[|docs| - 1])
  }

  function Concat(groups: seq<seq<Doc>>): seq<Doc> {
    if groups == [] then [] else groups[0] + Concat(groups[1..])
  }

  /** What `upsert_docs_batch` demands of one batch. */
  predicate OneDomain(group: seq<Doc>) {
    group != [] && forall d :: d in group ==> d.domain == group[0].domain
  }

  // ---------- The protocol ----------

  /** The sync worker holds its lock from the listing to the mark. */
  datatype Phase = Idle | Draining(listed: seq<Doc>, todo: seq<seq<Doc>>)

  /** A delete between its two halves; `reached` says whether the first one got through to pgvector. */
  datatype HalfDone = HalfDone(req: Delete, reached: bool)

  /** `deletes` are requests sent to pgvector but not yet done in SQLite. `dirty` (ids written since
      the open drain listed its rows) and `stale` (rows marked although dirty) only record history. */
  datatype State = State(
    rows: seq<Row>, pg: Replica, phase: Phase, deletes: multiset<HalfDone>,
    dirty: set<string>, stale: set<string>)

  const EMPTY: State := State([], map[], Idle, multiset{}, {}, {})

  datatype Action =
    | Write(doc: Doc)
    | DeleteInPg(req: Delete, reached: bool)
    | DeleteInSqlite(half: HalfDone)
    | DrainList(limit: nat)
    | DrainPush
    | DrainFail
    | DrainMark

  predicate Enabled(s: State, a: Action) {
    match a
    case Write(_) => true
    case DeleteInPg(_, _) => true
    case DeleteInSqlite(half) => half in s.deletes
    case DrainList(_) => s.phase.Idle?
    case DrainPush => s.phase.Draining? && s.phase.todo != []
    case DrainFail => s.phase.Draining?
    case DrainMark => s.phase.Draining? && s.phase.todo == []
  }

  function Apply(s: State, a: Action): State
    requires Enabled(s, a)
  {
    match a
    case Write(doc) =>
      s.(rows := PutRow(s.rows, doc),
         dirty := if s.phase.Draining? then s.dirty + {doc.id} else s.dirty,
         stale := s.stale - {doc.id})
    case DeleteInPg(req, reached) =>
      s.(pg := if reached then KeepDocs(s.pg, req) else s.pg, deletes := s.deletes + multiset{HalfDone(req, reached)})
    case DeleteInSqlite(half) =>
      s.(rows := KeepRows(s.rows, half.req), deletes := s.deletes - multiset{half})
    case DrainList(limit) =>
      var listed := Take(Pending(s.rows), limit);
      if listed == [] then s else s.(phase := Draining(listed, GroupByDomain(listed)), dirty := {})
    case DrainPush =>
      s.(pg := PutAll(s.pg, s.phase.todo[0]), phase := s.phase.(todo := s.phase.todo[1..]))
    case DrainFail =>
      s.(phase := Idle, dirty := {})
    case DrainMark =>
      var ids := Ids(s.phase.listed);
      s.(rows := MarkRows(s.rows, ids), phase := Idle, dirty := {}, stale := s.stale + ids * s.dirty)
  }

  ghost predicate Runs(s: State, actions: seq<Action>)
    decreases |actions|
  {
    actions == [] || (Enabled(s, actions[0]) && Runs(Apply(s, actions[0]), actions[1..]))
  }

  ghost function Run(s: State, actions: seq<Action>): State
    requires Runs(s, actions)
    decreases |actions|
  {
    if actions == [] then s else Run(Apply(s, actions[0]), actions[1..])
  }

  // ---------- The invariant ----------

  ghost predicate UniqueIds(rows: seq<Row>) {
    forall i, j :: 0 <= i < j < |rows| ==> rows[i].doc.id != rows[j].doc.id
  }

  ghost predicate Replicated(pg: Replica, doc: Doc) {
    doc.id in pg && pg[doc.id] == doc
  }

  ghost predicate BeingDeleted(s: State, doc: Doc) {
    exists half :: half in s.deletes && Covers(half.req, doc)
  }

  /** A half-done delete of the document has been done in pgvector. */
  ghost predicate TakenOut(s: State, doc: Doc) {
    exists half :: half in s.deletes && half.reached && Covers(half.req, doc)
  }

  /** A marked row is in pgvector as it is in SQLite, unless it was rewritten inside the drain
      that marked it or its own deletion is done in pgvector and not yet in SQLite. */
  ghost predicate RowSafe(s: State, r: Row) {
    r.synced && r.doc.id !in s.stale ==> Replicated(s.pg, r.doc) || TakenOut(s, r.doc)
  }

  /** A row under an open drain is unmarked; if not rewritten since it is the copy listed, and
      it is still to be pushed or already in pgvector. */
  ghost predicate RowDraining(s: State, r: Row) {
    s.phase.Draining? && r.doc.id in Ids(s.phase.listed) ==>
      && !r.synced
      && (r.doc.id !in s.dirty ==>
          r.doc in s.phase.listed && (r.doc in Concat(s.phase.todo) || Replicated(s.pg, r.doc) || TakenOut(s, r.doc)))
  }

  ghost predicate DistinctIds(docs: seq<Doc>) {
    forall i, j :: 0 <= i < j < |docs| ==> docs[i].id != docs[j].id
  }

  ghost predicate DrainOk(phase: Phase) {
    phase.Draining? ==>
      && DistinctIds(phase.listed)
      && DistinctIds(Concat(phase.todo))
      && (forall d :: d in Concat(phase.todo) ==> d in phase.listed)
      && (forall i :: 0 <= i < |phase.todo| ==> OneDomain(phase.todo[i]))
  }

  ghost predicate Inv(s: State) {
    && UniqueIds(s.rows)
    && DrainOk(s.phase)
    && (forall r :: r in s.rows ==> RowSafe(s, r) && RowDraining(s, r))
  }

  // ---------- Members of the table functions ----------

  lemma PutRowMembers(rows: seq<Row>, doc: Doc)
    requires UniqueIds(rows)
    ensures UniqueIds(PutRow(rows, doc))
    ensures forall r :: r in PutRow(rows, doc) <==> r == Row(doc, false) || (r in rows && r.doc.id != doc.id)
  {
    var k, put := FindRow(rows, doc.id), PutRow(rows, doc);
    if k < |rows| {
      assert put[k] == Row(doc, false);
      forall r | r in rows && r.doc.id != doc.id ensures r in put {
        var i :| 0 <= i < |rows| && rows[i] == r;
        assert put[i] == r;
      }
    }
  }

  lemma {:induction false} KeepRowsMembers(rows: seq<Row>, req: Delete)
    requires UniqueIds(rows)
    ensures UniqueIds(KeepRows(rows, req))
    ensures forall r :: r in KeepRows(rows, req) <==> r in rows && !Covers(req, r.doc)
  {
    if rows != [] {
      KeepRowsMembers(rows[1..], req);
      assert rows == [rows[0]] + rows[1..];
    }
  }

  lemma MarkRowsMembers(rows: seq<Row>, ids: set<string>)
    requires UniqueIds(rows)
    ensures UniqueIds(MarkRows(rows, ids))
    ensures forall r :: r in MarkRows(rows, ids) ==> exists q :: q in rows && r == MarkRow(q, ids)
    ensures forall q :: q in rows ==> MarkRow(q, ids) in MarkRows(rows, ids)
  {
    var marked := MarkRows(rows, ids);
    forall r | r in marked ensures exists q :: q in rows && r == MarkRow(q, ids) {
      var i :| 0 <= i < |marked| && marked[i] == r;
      assert rows[i] in rows && r == MarkRow(rows[i], ids);
    }
    forall q | q in rows ensures MarkRow(q, ids) in marked {
      var i :| 0 <= i < |rows| && rows[i] == q;
      assert marked[i] == MarkRow(q, ids);
    }
  }

  lemma {:induction false} PendingMembers(rows: seq<Row>)
    requires UniqueIds(rows)
    ensures DistinctIds(Pending(rows))
    ensures forall d :: d in Pending(rows) <==> Row(d, false) in rows
  {
    if rows != [] {
      PendingMembers(rows[1..]);
      assert rows == [rows[0]] + rows[1..];
      var rest := Pending(rows[1..]);
      forall i | 0 <= i < |rest| ensures rest[i].id != rows[0].doc.id {
        assert rest[i] in rest;
        assert Row(rest[i], false) in rows[1..];
      }
    }
  }

  lemma {:induction false} PutAllLookup(pg: Replica, docs: seq<Doc>)
    requires DistinctIds(docs)
    ensures forall d :: d in docs ==> Replicated(PutAll(pg, docs), d)
    ensures forall id :: id !in Ids(docs) ==>
        (id in PutAll(pg, docs) <==> id in pg) && (id in pg ==> PutAll(pg, docs)[id] == pg[id])
    ensures PutAll(pg, docs).Keys == pg.Keys + Ids(docs)
    decreases |docs|
  {
    if docs != [] {
      var first, rest := docs[0], docs[1..];
      PutAllLookup(pg[first.id := first], rest);
      assert docs == [first] + rest;
      assert first.id !in Ids(rest);
      assert Ids(docs) == {first.id} + Ids(rest);
    }
  }

  lemma {:induction false} AddToGroupShape(groups: seq<seq<Doc>>, doc: Doc)
    requires forall i :: 0 <= i < |groups| ==> OneDomain(groups[i])
    ensures forall i :: 0 <= i < |AddToGroup(groups, doc)| ==> OneDomain(AddToGroup(groups, doc)[i])
    ensures multiset(Concat(AddToGroup(groups, doc))) == multiset(Concat(groups)) + multiset{doc}
  {
    if groups == [] {
      assert [[doc]][1..] == [];
      assert Concat([[doc]]) == [doc] + Concat([]);
    } else if groups[0] != [] && groups[0][0].domain == doc.domain {
      var grown := groups[0] + [doc];
      assert ([grown] + groups[1..])[1..] == groups[1..];
      assert OneDomain(grown);
    } else {
      AddToGroupShape(groups[1..], doc);
      var rest := AddToGroup(groups[1..], doc);
      assert ([groups[0]] + rest)[1..] == rest;
    }
  }

  /** Every batch pushed has documents of one domain only, and the batches hold exactly the
      listed documents: the per-batch domain check never fails. */
  lemma {:induction false} GroupByDomainShape(docs: seq<Doc>)
    ensures forall i :: 0 <= i < |GroupByDomain(docs)| ==> OneDomain(GroupByDomain(docs)[i])
    ensures multiset(Concat(GroupByDomain(docs))) == multiset(docs)
  {
    if docs != [] {
      var front, last := docs[..|docs| - 1], docs[|docs| - 1];
      GroupByDomainShape(front);
      AddToGroupShape(GroupByDomain(front), last);
      assert docs == front + [last];
    }
  }

  lemma SameIdSameDoc(docs: seq<Doc>, d: Doc, e: Doc)
    requires DistinctIds(docs) && d in docs && e in docs && d.id == e.id
    ensures d == e
  {
  }

  lemma SameIdSameRow(rows: seq<Row>, r: Row, q: Row)
    requires UniqueIds(rows) && r in rows && q in rows && r.doc.id == q.doc.id
    ensures r == q
  {
  }

  lemma DistinctParts(a: seq<Doc>, b: seq<Doc>)
    requires DistinctIds(a + b)
    ensures DistinctIds(a) && DistinctIds(b)
  {
    forall i, j | 0 <= i < j < |a| ensures a[i].id != a[j].id {
      assert (a + b)[i].id != (a + b)[j].id;
    }
    forall i, j | 0 <= i < j < |b| ensures b[i].id != b[j].id {
      assert (a + b)[|a| + i].id != (a + b)[|a| + j].id;
    }
  }

  lemma {:induction false} DistinctOnce(a: seq<Doc>, x: Doc)
    requires DistinctIds(a)
    ensures multiset(a)[x] <= 1
  {
    if a != [] {
      var front, last := a[..|a| - 1], a[|a| - 1];
      assert a == front + [last];
      DistinctOnce(front, x);
      if x == last {
        assert x !in front;
        assert x !in multiset(front);
      }
    }
  }

  lemma CountTwice<T>(b: seq<T>, i: nat, j: nat)
    requires i < j < |b| && b[i] == b[j]
    ensures multiset(b)[b[i]] >= 2
  {
    var left, right := b[..j], b[j..];
    assert b == left + right;
    assert b[i] == left[i] && b[j] == right[0];
    assert b[i] in multiset(left) && b[i] in multiset(right);
  }

  lemma PermutationIsDistinct(a: seq<Doc>, b: seq<Doc>)
    requires DistinctIds(a) && multiset(a) == multiset(b)
    ensures DistinctIds(b)
  {
    forall i, j | 0 <= i < j < |b| ensures b[i].id != b[j].id {
      var x, y := b[i], b[j];
      assert x in multiset(b) && y in multiset(b);
      if x.id == y.id {
        SameIdSameDoc(a, x, y);
        DistinctOnce(a, x);
        CountTwice(b, i, j);
        assert false;
      }
    }
  }

  // ---------- Every step keeps the invariant ----------

  lemma WriteKeeps(s: State, doc: Doc)
    requires Inv(s)
    ensures Inv(Apply(s, Write(doc)))
  {
    var t := Apply(s, Write(doc));
    PutRowMembers(s.rows, doc);
    forall r | r in t.rows ensures RowSafe(t, r) && RowDraining(t, r) {
      if r != Row(doc, false) {
        assert RowSafe(s, r) && RowDraining(s, r);
        assert forall half :: half in s.deletes ==> half in t.deletes;
      }
    }
  }

  lemma DeleteInPgKeeps(s: State, req: Delete, reached: bool)
    requires Inv(s)
    ensures Inv(Apply(s, DeleteInPg(req, reached)))
  {
    var t := Apply(s, DeleteInPg(req, reached));
    assert HalfDone(req, reached) in t.deletes;
    forall r | r in t.rows ensures RowSafe(t, r) && RowDraining(t, r) {
      assert RowSafe(s, r) && RowDraining(s, r);
      assert TakenOut(s, r.doc) ==> TakenOut(t, r.doc) by {
        if TakenOut(s, r.doc) {
          var q :| q in s.deletes && q.reached && Covers(q.req, r.doc);
          assert q in t.deletes;
        }
      }
      assert Replicated(s.pg, r.doc) ==> Replicated(t.pg, r.doc) || TakenOut(t, r.doc);
    }
  }

  lemma DeleteInSqliteKeeps(s: State, half: HalfDone)
    requires Inv(s) && half in s.deletes
    ensures Inv(Apply(s, DeleteInSqlite(half)))
  {
    var t := Apply(s, DeleteInSqlite(half));
    KeepRowsMembers(s.rows, half.req);
    forall r | r in t.rows ensures RowSafe(t, r) && RowDraining(t, r) {
      assert RowSafe(s, r) && RowDraining(s, r);
      assert TakenOut(s, r.doc) ==> TakenOut(t, r.doc) by {
        if TakenOut(s, r.doc) {
          var q :| q in s.deletes && q.reached && Covers(q.req, r.doc);
          assert q != half;
          assert q in t.deletes;
        }
      }
    }
  }

  lemma TakeDistinct(docs: seq<Doc>, n: nat)
    requires DistinctIds(docs)
    ensures DistinctIds(Take(docs, n))
    ensures forall d :: d in Take(docs, n) ==> d in docs
  {
  }

  lemma DrainListKeeps(s: State, limit: nat)
    requires Inv(s) && s.phase.Idle?
    ensures Inv(Apply(s, DrainList(limit)))
  {
    var t := Apply(s, DrainList(limit));
    var listed := Take(Pending(s.rows), limit);
    if listed != [] {
      PendingMembers(s.rows);
      TakeDistinct(Pending(s.rows), limit);
      GroupByDomainShape(listed);
      var grouped := Concat(GroupByDomain(listed));
      PermutationIsDistinct(listed, grouped);
      assert forall d :: d in grouped <==> d in multiset(grouped);
      assert forall d :: d in listed <==> d in multiset(listed);
      forall r | r in t.rows ensures RowSafe(t, r) && RowDraining(t, r) {
        assert RowSafe(s, r);
        if r.doc.id in Ids(listed) {
          var d :| d in listed && d.id == r.doc.id;
          assert Row(d, false) in s.rows;
          SameIdSameRow(s.rows, r, Row(d, false));
        }
      }
    }
  }

  lemma DrainPushKeeps(s: State)
    requires Inv(s) && s.phase.Draining? && s.phase.todo != []
    ensures Inv(Apply(s, DrainPush))
  {
    var t := Apply(s, DrainPush);
    var group := s.phase.todo[0];
    var rest := Concat(s.phase.todo[1..]);
    assert Concat(s.phase.todo) == group + rest;
    DistinctParts(group, rest);
    PutAllLookup(s.pg, group);
    forall r | r in t.rows ensures RowSafe(t, r) && RowDraining(t, r) {
      assert RowSafe(s, r) && RowDraining(s, r);
      assert TakenOut(s, r.doc) == TakenOut(t, r.doc);
      if r.doc.id in Ids(group) {
        var d :| d in group && d.id == r.doc.id;
        assert d in Concat(s.phase.todo) && d in s.phase.listed;
        if r.doc in s.phase.listed {
          SameIdSameDoc(s.phase.listed, d, r.doc);
        }
      }
    }
  }

  lemma DrainFailKeeps(s: State)
    requires Inv(s) && s.phase.Draining?
    ensures Inv(Apply(s, DrainFail))
  {
    var t := Apply(s, DrainFail);
    forall r | r in t.rows ensures RowSafe(t, r) && RowDraining(t, r) {
      assert RowSafe(s, r) && RowDraining(s, r);
      assert TakenOut(s, r.doc) == TakenOut(t, r.doc);
    }
  }

  lemma DrainMarkKeeps(s: State)
    requires Inv(s) && s.phase.Draining? && s.phase.todo == []
    ensures Inv(Apply(s, DrainMark))
  {
    var t := Apply(s, DrainMark);
    var ids := Ids(s.phase.listed);
    MarkRowsMembers(s.rows, ids);
    forall r | r in t.rows ensures RowSafe(t, r) && RowDraining(t, r) {
      var q :| q in s.rows && r == MarkRow(q, ids);
      assert RowSafe(s, q) && RowDraining(s, q);
      assert TakenOut(s, q.doc) == TakenOut(t, r.doc);
    }
  }

  lemma StepKeeps(s: State, a: Action)
    requires Inv(s) && Enabled(s, a)
    ensures Inv(Apply(s, a))
  {
    match a
    case Write(doc) => WriteKeeps(s, doc);
    case DeleteInPg(req, reached) => DeleteInPgKeeps(s, req, reached);
    case DeleteInSqlite(half) => DeleteInSqliteKeeps(s, half);
    case DrainList(limit) => DrainListKeeps(s, limit);
    case DrainPush => DrainPushKeeps(s);
    case DrainFail => DrainFailKeeps(s);
    case DrainMark => DrainMarkKeeps(s);
  }

  /** No action of the run writes the document `id` while a drain is open. */
  ghost predicate QuietFor(s: State, actions: seq<Action>, id: string)
    requires Runs(s, actions)
    decreases |actions|
  {
    actions == [] ||
    ((actions[0].Write? && actions[0].doc.id == id ==> s.phase.Idle?)
      && QuietFor(Apply(s, actions[0]), actions[1..], id))
  }

  lemma {:induction false} RunKeeps(s: State, actions: seq<Action>)
    requires Inv(s) && Runs(s, actions)
    ensures Inv(Run(s, actions))
    decreases |actions|
  {
    if actions != [] {
      StepKeeps(s, actions[0]);
      RunKeeps(Apply(s, actions[0]), actions[1..]);
    }
  }

  lemma {:induction false} QuietIsFresh(s: State, actions: seq<Action>, id: string)
    requires Runs(s, actions) && QuietFor(s, actions, id)
    requires id !in s.stale && (s.phase.Draining? ==> id !in s.dirty)
    ensures id !in Run(s, actions).stale
    decreases |actions|
  {
    if actions != [] {
      QuietIsFresh(Apply(s, actions[0]), actions[1..], id);
    }
  }

  /** MAIN: after any interleaving of writes, half-done deletes and split drain steps with
      failing pushes, a row that is marked synced and was never written between a drain's
      listing and its mark is in pgvector exactly as it is in SQLite, unless its own deletion
      is between its two halves. */
  lemma SyncedMeansReplicated(actions: seq<Action>, r: Row)
    requires Runs(EMPTY, actions) && r in Run(EMPTY, actions).rows && r.synced
    requires QuietFor(EMPTY, actions, r.doc.id)
    ensures Replicated(Run(EMPTY, actions).pg, r.doc) || TakenOut(Run(EMPTY, actions), r.doc)
  {
    RunKeeps(EMPTY, actions);
    QuietIsFresh(EMPTY, actions, r.doc.id);
    assert RowSafe(Run(EMPTY, actions), r);
  }

  // ---------- Exactly when the mark is truthful ----------

  /** What can happen between a drain's listing and its mark. */
  predicate InWindow(a: Action) {
    a.Write? || a.DrainPush? || a.DeleteInPg? || a.DeleteInSqlite?
  }

  /** A delete of the listed copy `d` reached pgvector after `d` was pushed. */
  ghost predicate TakenBack(s: State, mid: seq<Action>, d: Doc)
    requires Runs(s, mid)
    decreases |mid|
  {
    mid != [] &&
    (|| (mid[0].DeleteInPg? && mid[0].reached && Covers(mid[0].req, d) && s.phase.Draining?
      && d !in Concat(s.phase.todo))
     || TakenBack(Apply(s, mid[0]), mid[1..], d))
  }

  /** The listed copy `d` is still to be pushed, or in pgvector, or `gone` from it. */
  ghost predicate OnTheWay(s: State, listed: seq<Doc>, d: Doc, gone: bool) {
    && s.phase.Draining? && s.phase.listed == listed && DistinctIds(listed) && d in listed
    && DistinctIds(Concat(s.phase.todo))
    && (forall e :: e in Concat(s.phase.todo) ==> e in listed)
    && (d in Concat(s.phase.todo) ==> !gone)
    && (d !in Concat(s.phase.todo) ==> if gone then d.id !in s.pg else Replicated(s.pg, d))
  }

  lemma PushOnTheWay(s: State, listed: seq<Doc>, d: Doc, gone: bool)
    requires OnTheWay(s, listed, d, gone) && s.phase.todo != []
    ensures OnTheWay(Apply(s, DrainPush), listed, d, gone)
  {
    var group, rest := s.phase.todo[0], Concat(s.phase.todo[1..]);
    assert Concat(s.phase.todo) == group + rest;
    DistinctParts(group, rest);
    PutAllLookup(s.pg, group);
    if d.id in Ids(group) {
      var e :| e in group && e.id == d.id;
      assert e in Concat(s.phase.todo);
      SameIdSameDoc(listed, d, e);
    }
    if d in group {
      DistinctApart(group, rest, d);
    }
  }

  lemma DistinctApart(a: seq<Doc>, b: seq<Doc>, x: Doc)
    requires DistinctIds(a + b) && x in a
    ensures x !in b
  {
    var i :| 0 <= i < |a| && a[i] == x;
    forall j | 0 <= j < |b| ensures b[j] != x {
      assert (a + b)[i].id != (a + b)[|a| + j].id;
    }
  }

  lemma OtherOnTheWay(s: State, a: Action, listed: seq<Doc>, d: Doc, gone: bool)
    requires OnTheWay(s, listed, d, gone) && InWindow(a) && !a.DrainPush? && Enabled(s, a)
    ensures OnTheWay(Apply(s, a), listed, d,
                     gone || (a.DeleteInPg? && a.reached && Covers(a.req, d) && d !in Concat(s.phase.todo)))
  {
  }

  lemma {:induction false} ListedRun(s: State, mid: seq<Action>, listed: seq<Doc>, d: Doc, gone: bool)
    requires OnTheWay(s, listed, d, gone) && Runs(s, mid) && forall a :: a in mid ==> InWindow(a)
    ensures OnTheWay(Run(s, mid), listed, d, gone || TakenBack(s, mid, d))
    decreases |mid|
  {
    if mid != [] {
      var a := mid[0];
      var now := gone || (a.DeleteInPg? && a.reached && Covers(a.req, d) && d !in Concat(s.phase.todo));
      if a.DrainPush? {
        assert a == DrainPush;
        PushOnTheWay(s, listed, d, gone);
      } else {
        OtherOnTheWay(s, a, listed, d, gone);
      }
      ListedRun(Apply(s, a), mid[1..], listed, d, now);
    }
  }

  lemma ListedAtFirst(s: State, limit: nat, d: Doc)
    requires Inv(s) && s.phase.Idle? && Apply(s, DrainList(limit)).phase.Draining?
    requires d in Apply(s, DrainList(limit)).phase.listed
    ensures
      var begin := Apply(s, DrainList(limit));
      OnTheWay(begin, begin.phase.listed, d, false)
  {
    var begin := Apply(s, DrainList(limit));
    var listed := begin.phase.listed;
    DrainListKeeps(s, limit);
    GroupByDomainShape(listed);
    assert forall e :: e in listed ==> e in multiset(listed);
    assert forall e :: e in multiset(Concat(begin.phase.todo)) ==> e in Concat(begin.phase.todo);
  }

  /** MAIN: take a drain that lists rows, is interleaved with any writes and deletes, pushes every
      group and marks. A listed row is then marked, and in pgvector as SQLite has it if and only if
      it is still the copy that was listed and no delete of that copy reached pgvector after its push. */
  lemma MarkTruthfulIff(s: State, limit: nat, mid: seq<Action>, r: Row)
    requires Inv(s) && s.phase.Idle? && Apply(s, DrainList(limit)).phase.Draining?
    requires Runs(Apply(s, DrainList(limit)), mid) && forall a :: a in mid ==> InWindow(a)
    requires Enabled(Run(Apply(s, DrainList(limit)), mid), DrainMark)
    requires r in Apply(Run(Apply(s, DrainList(limit)), mid), DrainMark).rows
    requires r.doc.id in Ids(Apply(s, DrainList(limit)).phase.listed)
    ensures r.synced
    ensures
      var begin := Apply(s, DrainList(limit));
      Replicated(Apply(Run(begin, mid), DrainMark).pg, r.doc)
      <==> r.doc in begin.phase.listed && !TakenBack(begin, mid, r.doc)
  {
    var begin := Apply(s, DrainList(limit));
    var listed := begin.phase.listed;
    var d :| d in listed && d.id == r.doc.id;
    ListedAtFirst(s, limit, d);
    hide Inv, Pending;
    ListedRun(begin, mid, listed, d, false);
    var marked := Apply(Run(begin, mid), DrainMark).rows;
    var i :| 0 <= i < |marked| && marked[i] == r;
    if r.doc in listed {
      SameIdSameDoc(listed, d, r.doc);
    }
  }

  /** The unrestricted claim is false: rewrite one document between the listing and the mark,
      and the row is marked synced while pgvector keeps the older text. */
  lemma WriteInsideDrainIsLost(before: Doc, after: Doc)
    requires before.id == after.id && before != after
    ensures
      var run := [Write(before)] + ([DrainList(1)] + ([Write(after)] + ([DrainPush] + ([DrainMark] + []))));
      && Runs(EMPTY, run)
      && Run(EMPTY, run).rows == [Row(after, true)]
      && Run(EMPTY, run).pg == map[after.id := before]
      && Run(EMPTY, run).deletes == multiset{}
  {
    var s1 := EMPTY.(rows := [Row(before, false)]);
    var s2 := s1.(phase := Draining([before], [[before]]));
    var s3 := s2.(rows := [Row(after, false)], dirty := {after.id});
    var s4 := s3.(pg := map[after.id := before], phase := Draining([before], []));
    var s5 := s4.(rows := [Row(after, true)], phase := Idle, dirty := {}, stale := {after.id});
    assert Apply(EMPTY, Write(before)) == s1;
    assert Apply(s1, DrainList(1)) == s2 by { OneListed(s1, before); }
    assert Apply(s2, Write(after)) == s3;
    assert Apply(s3, DrainPush) == s4 by {
      assert [[before]][1..] == [];
      assert [before][1..] == [];
      assert PutAll(map[], [before]) == PutAll(map[before.id := before], []);
    }
    assert Apply(s4, DrainMark) == s5 by {
      assert Ids([before]) == {after.id};
    }
    var r4: seq<Action> := [DrainMark] + [];
    var r3 := [DrainPush] + r4;
    var r2 := [Write(after)] + r3;
    OneStep(s4, DrainMark, []);
    OneStep(s3, DrainPush, r4);
    OneStep(s2, Write(after), r3);
    OneStep(s1, DrainList(1), r2);
    OneStep(EMPTY, Write(before), [DrainList(1)] + r2);
  }

  lemma OneStep(s: State, a: Action, rest: seq<Action>)
    requires Enabled(s, a) && Runs(Apply(s, a), rest)
    ensures Runs(s, [a] + rest) && Run(s, [a] + rest) == Run(Apply(s, a), rest)
  {
    assert ([a] + rest)[1..] == rest;
  }

  // ---------- Every replica row has its SQLite row ----------

  ghost predicate HasRow(rows: seq<Row>, d: Doc) {
    exists r :: r in rows && r.doc.id == d.id && r.doc.domain == d.domain
  }

  /** The ids whose pgvector row is not backed by SQLite, told from the actions alone. An id comes in
      when a delete of its pgvector row does not reach pgvector, when the document is written into
      another domain, or when a push puts a copy there whose row is gone, is in another domain or has
      a delete half done. It goes out when a delete reaches its pgvector row, when a later push is
      clean, or when the document is written again into the same domain with no delete half done. */
  ghost function Exposed(s: State, a: Action, loose: set<string>): set<string>
    requires Enabled(s, a)
  {
    match a
    case DeleteInPg(req, reached) =>
      var covered := set id | id in s.pg && Covers(req, s.pg[id]);
      if reached then loose - covered else loose + covered
    case Write(doc) =>
      if doc.id !in s.pg then loose
      else if s.pg[doc.id].domain != doc.domain || BeingDeleted(s, s.pg[doc.id]) then loose + {doc.id}
      else loose - {doc.id}
    case DrainPush =>
      var group := s.phase.todo[0];
      loose - Ids(group) + set d | d in group && (!HasRow(s.rows, d) || BeingDeleted(s, d)) :: d.id
    case _ => loose
  }

  ghost function Loose(s: State, actions: seq<Action>, loose: set<string>): set<string>
    requires Runs(s, actions)
    decreases |actions|
  {
    if actions == [] then loose else Loose(Apply(s, actions[0]), actions[1..], Exposed(s, actions[0], loose))
  }

  /** The pgvector row of `id` has its SQLite row, of the same domain and with no delete half done. */
  ghost predicate Backed(s: State, id: string)
    requires id in s.pg
  {
    HasRow(s.rows, s.pg[id]) && !BeingDeleted(s, s.pg[id])
  }

  ghost predicate Told(s: State, id: string, loose: set<string>) {
    id in s.pg ==> (Backed(s, id) <==> id !in loose)
  }

  ghost predicate Keyed(pg: Replica) {
    forall id :: id in pg ==> pg[id].id == id
  }

  lemma WriteTells(s: State, doc: Doc, id: string, loose: set<string>)
    requires Inv(s) && Keyed(s.pg) && Told(s, id, loose)
    ensures Told(Apply(s, Write(doc)), id, Exposed(s, Write(doc), loose))
  {
    var t := Apply(s, Write(doc));
    PutRowMembers(s.rows, doc);
    if id in s.pg {
      assert BeingDeleted(t, s.pg[id]) == BeingDeleted(s, s.pg[id]);
      if id == doc.id {
        assert Row(doc, false) in t.rows;
        assert HasRow(t.rows, s.pg[id]) <==> s.pg[id].domain == doc.domain;
      } else {
        assert forall r: Row :: r.doc.id == id ==> (r in t.rows <==> r in s.rows);
        assert HasRow(t.rows, s.pg[id]) <==> HasRow(s.rows, s.pg[id]);
      }
    }
  }

  lemma DeleteInPgTells(s: State, req: Delete, reached: bool, id: string, loose: set<string>)
    requires Told(s, id, loose)
    ensures Told(Apply(s, DeleteInPg(req, reached)), id, Exposed(s, DeleteInPg(req, reached), loose))
  {
    var t := Apply(s, DeleteInPg(req, reached));
    assert forall half :: half in t.deletes <==> half in s.deletes || half == HalfDone(req, reached);
  }

  /** The second half of a delete: what it stops endangering, it has taken the row of. */
  lemma DeleteInSqliteTells(s: State, half: HalfDone, id: string, loose: set<string>)
    requires Inv(s) && half in s.deletes && Told(s, id, loose)
    ensures Told(Apply(s, DeleteInSqlite(half)), id, Exposed(s, DeleteInSqlite(half), loose))
  {
    var t := Apply(s, DeleteInSqlite(half));
    KeepRowsMembers(s.rows, half.req);
    if id in s.pg {
      assert forall h :: h in t.deletes ==> h in s.deletes;
      assert forall h :: h in s.deletes && h != half ==> h in t.deletes;
      if Backed(s, id) {
        assert !Covers(half.req, s.pg[id]);
        var r :| r in s.rows && r.doc.id == s.pg[id].id && r.doc.domain == s.pg[id].domain;
        assert r in t.rows;
      } else if HasRow(t.rows, s.pg[id]) {
        assert !Covers(half.req, s.pg[id]);
        var h :| h in s.deletes && Covers(h.req, s.pg[id]);
        assert h in t.deletes;
      }
    }
  }

  lemma PushTells(s: State, id: string, loose: set<string>)
    requires Inv(s) && Enabled(s, DrainPush) && Told(s, id, loose)
    ensures Told(Apply(s, DrainPush), id, Exposed(s, DrainPush, loose))
  {
    var t, group := Apply(s, DrainPush), s.phase.todo[0];
    assert Concat(s.phase.todo) == group + Concat(s.phase.todo[1..]);
    DistinctParts(group, Concat(s.phase.todo[1..]));
    PutAllLookup(s.pg, group);
    assert forall doc :: BeingDeleted(t, doc) == BeingDeleted(s, doc);
    if id in Ids(group) {
      var d :| d in group && d.id == id;
      assert Replicated(t.pg, d);
      assert forall e :: e in group && e.id == id ==> e == d;
    }
  }

  lemma MarkTells(s: State, id: string, loose: set<string>)
    requires Inv(s) && Enabled(s, DrainMark) && Told(s, id, loose)
    ensures Told(Apply(s, DrainMark), id, loose)
  {
    var t, ids := Apply(s, DrainMark), Ids(s.phase.listed);
    MarkRowsMembers(s.rows, ids);
    if id in s.pg {
      assert BeingDeleted(t, s.pg[id]) == BeingDeleted(s, s.pg[id]);
      if r :| r in s.rows && r.doc.id == s.pg[id].id && r.doc.domain == s.pg[id].domain {
        assert MarkRow(r, ids) in t.rows;
      }
      if r :| r in t.rows && r.doc.id == s.pg[id].id && r.doc.domain == s.pg[id].domain {
        var q :| q in s.rows && r == MarkRow(q, ids);
      }
    }
  }

  lemma RestTells(s: State, a: Action, id: string, loose: set<string>)
    requires (a.DrainList? || a.DrainFail?) && Enabled(s, a) && Told(s, id, loose)
    ensures Told(Apply(s, a), id, loose)
  {
    assert Apply(s, a).pg == s.pg && Apply(s, a).rows == s.rows && Apply(s, a).deletes == s.deletes;
  }

  lemma {:induction false} PutAllKeyed(pg: Replica, docs: seq<Doc>)
    requires Keyed(pg)
    ensures Keyed(PutAll(pg, docs))
    decreases |docs|
  {
    if docs != [] {
      PutAllKeyed(pg[docs[0].id := docs[0]], docs[1..]);
    }
  }

  lemma StepTells(s: State, a: Action, id: string, loose: set<string>)
    requires Inv(s) && Keyed(s.pg) && Enabled(s, a) && Told(s, id, loose)
    ensures Keyed(Apply(s, a).pg)
    ensures Told(Apply(s, a), id, Exposed(s, a, loose))
  {
    hide Inv, Told, PutAll;
    match a
    case Write(doc) => WriteTells(s, doc, id, loose);
    case DeleteInPg(req, reached) => DeleteInPgTells(s, req, reached, id, loose);
    case DeleteInSqlite(half) => DeleteInSqliteTells(s, half, id, loose);
    case DrainPush =>
      PutAllKeyed(s.pg, s.phase.todo[0]);
      PushTells(s, id, loose);
    case DrainMark => MarkTells(s, id, loose);
    case DrainList(_) => RestTells(s, a, id, loose);
    case DrainFail => RestTells(s, a, id, loose);
  }

  lemma {:induction false} RunTells(s: State, actions: seq<Action>, id: string, loose: set<string>)
    requires Inv(s) && Keyed(s.pg) && Runs(s, actions) && Told(s, id, loose)
    ensures Keyed(Run(s, actions).pg)
    ensures Told(Run(s, actions), id, Loose(s, actions, loose))
    decreases |actions|
  {
    hide Inv, Keyed, Told, Apply, Enabled, Exposed;
    if actions != [] {
      StepKeeps(s, actions[0]);
      StepTells(s, actions[0], id, loose);
      RunTells(Apply(s, actions[0]), actions[1..], id, Exposed(s, actions[0], loose));
    }
  }

  /** MAIN: the other direction, exactly. After any interleaving, a document that pgvector holds has its
      row in SQLite, of the same id and domain and with no delete half done, if and only if none of a
      delete that missed pgvector, a change of domain and a push that raced a delete has happened to it
      without being made good since. */
  lemma ReplicaIsBackedIff(actions: seq<Action>, id: string)
    requires Runs(EMPTY, actions) && id in Run(EMPTY, actions).pg
    ensures Run(EMPTY, actions).pg[id].id == id
    ensures Backed(Run(EMPTY, actions), id) <==> id !in Loose(EMPTY, actions, {})
  {
    RunTells(EMPTY, actions, id, {});
  }

  /** The input: a document is deleted in both stores while a drain has it listed, the push brings it
      back to pgvector, and no later drain takes it out. */
  lemma PushAfterDeleteComesBack(doc: Doc)
    ensures
      var req := OneDoc(doc.domain, doc.id);
      var run := [Write(doc)] + ([DrainList(1)] + ([DeleteInPg(req, true)] + ([DeleteInSqlite(HalfDone(req, true))]
                 + ([DrainPush] + ([DrainMark] + [])))));
      && Runs(EMPTY, run)
      && Run(EMPTY, run).rows == []
      && Run(EMPTY, run).pg == map[doc.id := doc]
      && Run(EMPTY, run).deletes == multiset{}
      && Run(EMPTY, run).phase.Idle?
  {
    var req := OneDoc(doc.domain, doc.id);
    var half := HalfDone(req, true);
    var s1 := EMPTY.(rows := [Row(doc, false)]);
    var s2 := s1.(phase := Draining([doc], [[doc]]));
    var s3 := s2.(deletes := multiset{half});
    var s4 := s2.(rows := []);
    var s5 := s4.(pg := map[doc.id := doc], phase := Draining([doc], []));
    var s6 := s5.(phase := Idle);
    assert Apply(EMPTY, Write(doc)) == s1;
    assert Apply(s1, DrainList(1)) == s2 by { OneListed(s1, doc); }
    assert Apply(s2, DeleteInPg(req, true)) == s3;
    assert Apply(s3, DeleteInSqlite(half)) == s4 by {
      assert KeepRows([Row(doc, false)], req) == [] + KeepRows([Row(doc, false)][1..], req);
    }
    assert Apply(s4, DrainPush) == s5 by {
      assert [[doc]][1..] == [] && [doc][1..] == [];
      assert PutAll(map[], [doc]) == PutAll(map[doc.id := doc], []);
    }
    assert Apply(s5, DrainMark) == s6;
    var r5: seq<Action> := [DrainMark] + [];
    var r4 := [DrainPush] + r5;
    var r3 := [DeleteInSqlite(half)] + r4;
    var r2 := [DeleteInPg(req, true)] + r3;
    OneStep(s5, DrainMark, []);
    OneStep(s4, DrainPush, r5);
    OneStep(s3, DeleteInSqlite(half), r4);
    OneStep(s2, DeleteInPg(req, true), r3);
    OneStep(s1, DrainList(1), r2);
    OneStep(EMPTY, Write(doc), [DrainList(1)] + r2);
  }

  lemma OneListed(s: State, doc: Doc)
    requires s.rows == [Row(doc, false)] && s.phase.Idle? && s.dirty == {}
    ensures Apply(s, DrainList(1)) == s.(phase := Draining([doc], [[doc]]))
  {
    assert Pending(s.rows) == [doc] + Pending(s.rows[1..]);
    var none: seq<Doc> := [];
    assert [doc][..0] == none;
    assert GroupByDomain([doc]) == AddToGroup(GroupByDomain(none), doc);
  }

  // ---------- Whole drains: progress, failure, retry ----------

  function PushAll(s: State): (t: State)
    requires s.phase.Draining?
    ensures t == s.(pg := t.pg, phase := Draining(s.phase.listed, []))
    decreases if s.phase.Draining? then |s.phase.todo| else 0
  {
    if s.phase.todo == [] then s else PushAll(Apply(s, DrainPush))
  }

  /** A drain that nothing interrupts. */
  function FullDrain(s: State, limit: nat): State
    requires s.phase.Idle?
  {
    var t := Apply(s, DrainList(limit));
    if t.phase.Idle? then t else Apply(PushAll(t), DrainMark)
  }

  /** A drain whose push of group number `k` fails. */
  function FailedDrain(s: State, limit: nat, k: nat): State
    requires s.phase.Idle?
  {
    var t := Apply(s, DrainList(limit));
    if t.phase.Idle? then t else Apply(PushSome(t, k), DrainFail)
  }

  function PushSome(s: State, k: nat): (t: State)
    requires s.phase.Draining?
    ensures t == s.(pg := t.pg, phase := t.phase) && t.phase.Draining?
    decreases k
  {
    if k == 0 || s.phase.todo == [] then s else PushSome(Apply(s, DrainPush), k - 1)
  }

  function Drains(s: State, limit: nat, k: nat): (t: State)
    requires s.phase.Idle?
    ensures t.phase.Idle?
  {
    if k == 0 then s else FullDrain(Drains(s, limit, k - 1), limit)
  }

  lemma MarkUnlisted(rows: seq<Row>, id: string, ids: set<string>)
    requires forall r :: r in rows ==> r.doc.id != id
    ensures MarkRows(rows, {id} + ids) == MarkRows(rows, ids)
  {
    assert forall i :: 0 <= i < |rows| ==> rows[i] in rows;
  }

  lemma {:induction false} MarkTakesFromPending(rows: seq<Row>, n: nat)
    requires UniqueIds(rows)
    ensures Pending(MarkRows(rows, Ids(Take(Pending(rows), n)))) == Drop(Pending(rows), n)
    decreases |rows|
  {
    if rows != [] {
      var first, rest := rows[0], rows[1..];
      var m := if first.synced || n == 0 then n else n - 1;
      var ids := Ids(Take(Pending(rest), m));
      MarkTakesFromPending(rest, m);
      MarkUnlisted(rest, first.doc.id, ids);
      var all := Ids(Take(Pending(rows), n));
      assert first.synced ==> Pending(rows) == Pending(rest);
      assert first.synced || n == 0 ==> all == ids by {
        if n == 0 { assert Take(Pending(rows), 0) == [] == Take(Pending(rest), 0); }
      }
      assert !first.synced && n > 0 ==> all == {first.doc.id} + ids by {
        if !first.synced && n > 0 {
          assert Take(Pending(rows), n) == [first.doc] + Take(Pending(rest), n - 1);
        }
      }
      assert MarkRows(rows, all) == [MarkRow(first, all)] + MarkRows(rest, all);
    }
  }

  lemma DrainTakesFromPending(s: State, limit: nat)
    requires Inv(s) && s.phase.Idle?
    ensures Pending(FullDrain(s, limit).rows) == Drop(Pending(s.rows), limit)
  {
    FullDrainRows(s, limit);
    if Take(Pending(s.rows), limit) != [] {
      assert UniqueIds(s.rows);
      hide Inv, FullDrain, Pending, MarkRows;
      MarkTakesFromPending(s.rows, limit);
    }
  }

  lemma FullDrainRows(s: State, limit: nat)
    requires s.phase.Idle?
    ensures
      var listed := Take(Pending(s.rows), limit);
      FullDrain(s, limit).rows == if listed == [] then s.rows else MarkRows(s.rows, Ids(listed))
  {
    hide Pending, MarkRows, Take, GroupByDomain, Ids;
  }

  lemma {:induction false} PushAllKeeps(s: State)
    requires Inv(s) && s.phase.Draining?
    ensures Inv(PushAll(s))
    decreases |s.phase.todo|
  {
    if s.phase.todo != [] {
      DrainPushKeeps(s);
      PushAllKeeps(Apply(s, DrainPush));
    }
  }

  lemma FullDrainKeeps(s: State, limit: nat)
    requires Inv(s) && s.phase.Idle? && s.dirty == {}
    ensures Inv(FullDrain(s, limit))
    ensures FullDrain(s, limit).stale == s.stale && FullDrain(s, limit).deletes == s.deletes
        && FullDrain(s, limit).dirty == {}
  {
    DrainListKeeps(s, limit);
    var t := Apply(s, DrainList(limit));
    if t.phase.Draining? {
      PushAllKeeps(t);
      DrainMarkKeeps(PushAll(t));
      assert Ids(t.phase.listed) * {} == {};
    }
  }

  /** A state between drains, and the history that only drains with writes inside can change. */
  ghost predicate Quiet(s: State, stale: set<string>, deletes: multiset<HalfDone>) {
    Inv(s) && s.phase.Idle? && s.dirty == {} && s.stale == stale && s.deletes == deletes
  }

  lemma {:induction false} DrainsKeep(s: State, limit: nat, k: nat)
    requires Quiet(s, s.stale, s.deletes)
    ensures Quiet(Drains(s, limit, k), s.stale, s.deletes)
    decreases k
  {
    hide FullDrain;
    hide Inv;
    if k > 0 {
      DrainsKeep(s, limit, k - 1);
      FullDrainKeeps(Drains(s, limit, k - 1), limit);
    }
  }

  lemma {:induction false} DrainsTake(s: State, limit: nat, k: nat)
    requires Quiet(s, s.stale, s.deletes)
    ensures Pending(Drains(s, limit, k).rows) == Drop(Pending(s.rows), k * limit)
    decreases k
  {
    hide FullDrain;
    hide Pending;
    if k > 0 {
      DrainsTake(s, limit, k - 1);
      DrainsKeep(s, limit, k - 1);
      OneMore(limit, k);
      DrainTakesMore(Drains(s, limit, k - 1), limit, Pending(s.rows), (k - 1) * limit);
    }
  }

  lemma DrainTakesMore(s: State, limit: nat, all: seq<Doc>, done: nat)
    requires Inv(s) && s.phase.Idle? && Pending(s.rows) == Drop(all, done)
    ensures Pending(FullDrain(s, limit).rows) == Drop(all, done + limit)
  {
    DrainTakesFromPending(s, limit);
    DropDrop(all, done, limit);
  }

  lemma OneMore(limit: nat, k: nat)
    requires k > 0
    ensures 0 <= (k - 1) * limit && (k - 1) * limit + limit == k * limit
  {
  }

  lemma DropDrop<T>(s: seq<T>, m: nat, n: nat)
    ensures Drop(Drop(s, m), n) == Drop(s, m + n)
  {
  }

  /** MAIN: with writes and deletes stopped and pgvector reachable, `k` drains of `limit` rows
      empty the pending set exactly when `k * limit` covers it, and then every row is marked and,
      unless it was rewritten inside an earlier drain, is in pgvector as it is in SQLite. */
  lemma DrainsCatchUp(s: State, limit: nat, k: nat)
    requires Inv(s) && s.phase.Idle? && s.dirty == {} && s.deletes == multiset{}
    ensures Pending(Drains(s, limit, k).rows) == [] <==> k * limit >= |Pending(s.rows)|
    ensures k * limit >= |Pending(s.rows)| ==>
      forall r :: r in Drains(s, limit, k).rows ==>
        r.synced && (r.doc.id !in s.stale ==> Replicated(Drains(s, limit, k).pg, r.doc))
  {
    DrainsKeep(s, limit, k);
    DrainsTake(s, limit, k);
    var t := Drains(s, limit, k);
    if k * limit >= |Pending(s.rows)| {
      forall r | r in t.rows ensures r.synced && (r.doc.id !in s.stale ==> Replicated(t.pg, r.doc)) {
        assert RowSafe(t, r);
        PendingMembers(t.rows);
        assert r == Row(r.doc, r.synced);
      }
    }
  }

  lemma {:induction false} PutAllAppend(pg: Replica, a: seq<Doc>, b: seq<Doc>)
    ensures PutAll(PutAll(pg, a), b) == PutAll(pg, a + b)
    decreases |a|
  {
    if a == [] {
      assert a + b == b;
    } else {
      assert (a + b)[1..] == a[1..] + b;
      PutAllAppend(pg[a[0].id := a[0]], a[1..], b);
    }
  }

  lemma {:induction false} PushAllPg(s: State)
    requires s.phase.Draining?
    ensures PushAll(s).pg == PutAll(s.pg, Concat(s.phase.todo))
    decreases |s.phase.todo|
  {
    if s.phase.todo != [] {
      PushAllPg(Apply(s, DrainPush));
      PutAllAppend(s.pg, s.phase.todo[0], Concat(s.phase.todo[1..]));
    }
  }

  /** Pushing some of the groups puts some of the listed documents. */
  lemma {:induction false} PushSomePg(s: State, k: nat) returns (put: seq<Doc>, rest: seq<Doc>)
    requires s.phase.Draining?
    ensures put + rest == Concat(s.phase.todo)
    ensures PushSome(s, k).pg == PutAll(s.pg, put)
    decreases k
  {
    if k == 0 || s.phase.todo == [] {
      put, rest := [], Concat(s.phase.todo);
      assert put + rest == rest;
    } else {
      var put', rest' := PushSomePg(Apply(s, DrainPush), k - 1);
      PutAllAppend(s.pg, s.phase.todo[0], put');
      put, rest := s.phase.todo[0] + put', rest';
      assert put + rest == s.phase.todo[0] + (put' + rest');
    }
  }

  lemma PutTwice(pg: Replica, put: seq<Doc>, rest: seq<Doc>)
    requires DistinctIds(put + rest)
    ensures PutAll(PutAll(pg, put), put + rest) == PutAll(pg, put + rest)
  {
    hide PutAll, Ids, DistinctIds;
    var once, twice := PutAll(pg, put + rest), PutAll(PutAll(pg, put), put + rest);
    forall id ensures (id in once <==> id in twice) && (id in once && id in twice ==> once[id] == twice[id]) {
      PutTwiceAt(pg, put, rest, id);
    }
  }

  lemma PutTwiceAt(pg: Replica, put: seq<Doc>, rest: seq<Doc>, id: string)
    requires DistinctIds(put + rest)
    ensures
      var once, twice := PutAll(pg, put + rest), PutAll(PutAll(pg, put), put + rest);
      (id in once <==> id in twice) && (id in once && id in twice ==> once[id] == twice[id])
  {
    hide PutAll;
    var all := put + rest;
    DistinctParts(put, rest);
    PutAllLookup(pg, put);
    PutAllLookup(pg, all);
    PutAllLookup(PutAll(pg, put), all);
    assert id in Ids(put) ==> id in Ids(all) by {
      if d :| d in put && d.id == id { assert d in all; }
    }
    if id in Ids(all) {
      var d :| d in all && d.id == id;
      assert Replicated(PutAll(pg, all), d) && Replicated(PutAll(PutAll(pg, put), all), d);
    }
  }

  /** MAIN: a drain that fails after any number of domain groups leaves SQLite, and so the
      pending set, as it was, and draining again reaches the same stores as if the failure had
      not happened. */
  lemma FailureThenRetry(s: State, limit: nat, k: nat)
    requires Inv(s) && s.phase.Idle? && s.dirty == {}
    ensures FailedDrain(s, limit, k).rows == s.rows && FailedDrain(s, limit, k).phase == Idle
    ensures FullDrain(FailedDrain(s, limit, k), limit) == FullDrain(s, limit)
  {
    DrainListKeeps(s, limit);
    var t := Apply(s, DrainList(limit));
    if t.phase.Draining? {
      var put, rest := PushSomePg(t, k);
      var failed := FailedDrain(s, limit, k);
      var again := Apply(failed, DrainList(limit));
      assert failed == s.(pg := PutAll(s.pg, put));
      assert again == t.(pg := PutAll(s.pg, put));
      PushAllPg(t);
      PushAllPg(again);
      PutTwice(s.pg, put, rest);
    }
  }

  /** Any number of failed attempts, each stopping at its own group, before the good one. */
  function FailedDrains(s: State, limit: nat, ks: seq<nat>): (t: State)
    requires s.phase.Idle?
    ensures t.phase.Idle?
    decreases |ks|
  {
    if ks == [] then s else FailedDrains(FailedDrain(s, limit, ks[0]), limit, ks[1..])
  }

  lemma {:induction false} FailedDrainKeeps(s: State, limit: nat, k: nat)
    requires Inv(s) && s.phase.Idle? && s.dirty == {}
    ensures Inv(FailedDrain(s, limit, k)) && FailedDrain(s, limit, k).dirty == {}
  {
    DrainListKeeps(s, limit);
    var t := Apply(s, DrainList(limit));
    if t.phase.Draining? {
      PushSomeKeeps(t, k);
      DrainFailKeeps(PushSome(t, k));
    }
  }

  lemma {:induction false} PushSomeKeeps(s: State, k: nat)
    requires Inv(s) && s.phase.Draining?
    ensures Inv(PushSome(s, k))
    decreases k
  {
    if k > 0 && s.phase.todo != [] {
      DrainPushKeeps(s);
      PushSomeKeeps(Apply(s, DrainPush), k - 1);
    }
  }

  lemma {:induction false} FailuresThenRetry(s: State, limit: nat, ks: seq<nat>)
    requires Inv(s) && s.phase.Idle? && s.dirty == {}
    ensures FailedDrains(s, limit, ks).rows == s.rows
    ensures FullDrain(FailedDrains(s, limit, ks), limit) == FullDrain(s, limit)
    decreases |ks|
  {
    if ks != [] {
      FailureThenRetry(s, limit, ks[0]);
      FailedDrainKeeps(s, limit, ks[0]);
      FailuresThenRetry(FailedDrain(s, limit, ks[0]), limit, ks[1..]);
    }
  }

  // ---------- The stores and the worker, in place ----------

  /** The document table of `SQLiteVecBackend`. Each method is one critical section of its lock. */
  class SqliteDocs {
    var rows: seq<Row>

    constructor ()
      ensures rows == []
    {
      rows := [];
    }

    method FindKey(id: string) returns (k: nat)
      ensures k == FindRow(rows, id)
    {
      k := 0;
      while k < |rows|
        invariant 0 <= k <= |rows|
        invariant FindRow(rows, id) == k + FindRow(rows[k..], id)
      {
        assert rows[k..][1..] == rows[k + 1..];
        if rows[k].doc.id == id { return; }
        k := k + 1;
      }
    }

    /** `_upsert_one_locked`: a new row, or an update that resets `synced_at`. */
    method UpsertOne(doc: Doc)
      modifies this
      ensures rows == PutRow(old(rows), doc)
    {
      var k := FindKey(doc.id);
      if k == |rows| {
        rows := rows + [Row(doc, false)];
      } else {
        rows := rows[k := Row(doc, false)];
      }
    }

    method UpsertBatch(docs: seq<Doc>)
      modifies this
      ensures rows == PutRows(old(rows), docs)
    {
      var i := 0;
      while i < |docs|
        invariant 0 <= i <= |docs|
        invariant rows == PutRows(old(rows), docs[..i])
      {
        assert docs[..i + 1][..i] == docs[..i];
        UpsertOne(docs[i]);
        i := i + 1;
      }
      assert docs[..i] == docs;
    }

    method ListUnsynced(limit: nat) returns (docs: seq<Doc>)
      ensures docs == Take(Pending(rows), limit)
    {
      docs := [];
      var i := 0;
      while i < |rows| && |docs| < limit
        invariant 0 <= i <= |rows| && |docs| <= limit
        invariant docs + Pending(rows[i..]) == Pending(rows)
      {
        assert rows[i..][1..] == rows[i + 1..];
        if !rows[i].synced {
          docs := docs + [rows[i].doc];
        }
        i := i + 1;
      }
    }

    method MarkSynced(ids: set<string>)
      modifies this
      ensures rows == MarkRows(old(rows), ids)
    {
      var i := 0;
      while i < |rows|
        invariant 0 <= i <= |rows| == |old(rows)|
        invariant forall j :: 0 <= j < i ==> rows[j] == MarkRow(old(rows)[j], ids)
        invariant forall j :: i <= j < |rows| ==> rows[j] == old(rows)[j]
      {
        if rows[i].doc.id in ids {
          rows := rows[i := rows[i].(synced := true)];
        }
        i := i + 1;
      }
    }

    method DeleteWhere(req: Delete)
      modifies this
      ensures rows == KeepRows(old(rows), req)
    {
      var kept: seq<Row> := [];
      var i := 0;
      while i < |rows|
        invariant 0 <= i <= |rows| && rows == old(rows)
        invariant kept + KeepRows(rows[i..], req) == KeepRows(rows, req)
      {
        ghost var rest := KeepRows(rows[i + 1..], req);
        KeepRowsStep(rows, i, req);
        if !Covers(req, rows[i].doc) {
          Assoc(kept, [rows[i]], rest);
          kept := kept + [rows[i]];
        } else {
          Assoc(kept, [], rest);
        }
        i := i + 1;
      }
      rows := kept;
    }
  }

  /** The document table of `PgVectorBackend`; `up` says whether this call reaches the server. */
  class PgDocs {
    var docs: Replica

    constructor ()
      ensures docs == map[]
    {
      docs := map[];
    }

    /** `upsert_docs_batch`: one transaction, so either every document is written or none. */
    method UpsertDocsBatch(domain: string, batch: seq<Doc>, up: bool) returns (ok: bool)
      modifies this
      ensures ok <==> up && forall d :: d in batch ==> d.domain == domain
      ensures docs == if ok then PutAll(old(docs), batch) else old(docs)
    {
      var i := 0;
      while i < |batch|
        invariant 0 <= i <= |batch|
        invariant forall j :: 0 <= j < i ==> batch[j].domain == domain
      {
        if batch[i].domain != domain { return false; }
        i := i + 1;
      }
      if !up { return false; }
      var work := docs;
      i := 0;
      while i < |batch|
        invariant 0 <= i <= |batch|
        invariant PutAll(work, batch[i..]) == PutAll(docs, batch)
      {
        assert batch[i..][1..] == batch[i + 1..];
        work := work[batch[i].id := batch[i]];
        i := i + 1;
      }
      docs := work;
      return true;
    }

    method DeleteWhere(req: Delete, up: bool) returns (ok: bool)
      modifies this
      ensures ok == up && docs == if up then KeepDocs(old(docs), req) else old(docs)
    {
      if up {
        docs := map id | id in docs && !Covers(req, docs[id]) :: docs[id];
      }
      return up;
    }
  }

  /** The state the protocol starts a drain from. */
  ghost function Stores(rows: seq<Row>, pg: Replica): State {
    State(rows, pg, Idle, multiset{}, {}, {})
  }

  /** Number of leading pushes that succeed. */
  function Successes(up: seq<bool>): (k: nat)
    ensures k <= |up|
  {
    if up == [] || !up[0] then 0 else Successes(up[1..]) + 1
  }

  class SyncWorker {
    const sqlite: SqliteDocs
    const pgvec: PgDocs
    const batchSize: nat
    var pgReachable: bool
    var backoff: real
    var lastSyncDocs: nat

    constructor (sqlite: SqliteDocs, pgvec: PgDocs, batchSize: nat)
      ensures this.sqlite == sqlite && this.pgvec == pgvec && this.batchSize == batchSize
      ensures pgReachable && backoff == 1.0 && lastSyncDocs == 0
    {
      this.sqlite, this.pgvec, this.batchSize := sqlite, pgvec, batchSize;
      pgReachable, backoff, lastSyncDocs := true, 1.0, 0;
    }

    method Group(docs: seq<Doc>) returns (groups: seq<seq<Doc>>)
      ensures groups == GroupByDomain(docs)
    {
      groups := [];
      var i := 0;
      while i < |docs|
        invariant 0 <= i <= |docs|
        invariant groups == GroupByDomain(docs[..i])
      {
        assert docs[..i + 1][..i] == docs[..i];
        groups := AddToGroup(groups, docs[i]);
        i := i + 1;
      }
      assert docs[..i] == docs;
    }

    /** The push loop of a drain: one batch per domain, until one fails. */
    method PushGroups(groups: seq<seq<Doc>>, up: seq<bool>) returns (ok: bool, synced: set<string>)
      requires forall i :: 0 <= i < |groups| ==> OneDomain(groups[i])
      modifies pgvec
      ensures ok <==> !(Successes(up) < |up| && Successes(up) < |groups|)
      ensures pgvec.docs == PutGroups(old(pgvec.docs), groups, if ok then |groups| else Successes(up))
      ensures ok ==> synced == Ids(Concat(groups))
    {
      synced := {};
      var i := 0;
      while i < |groups|
        invariant 0 <= i <= |groups|
        invariant i <= Successes(up) || Successes(up) == |up|
        invariant pgvec.docs == PutGroups(old(pgvec.docs), groups, i)
        invariant synced == Ids(Concat(groups[..i]))
      {
        assert OneDomain(groups[i]);
        SuccessesAt(up, i);
        ConcatSnoc(groups, i);
        ok := pgvec.UpsertDocsBatch(groups[i][0].domain, groups[i], i >= |up| || up[i]);
        if !ok { return; }
        synced := synced + Ids(groups[i]);
        i := i + 1;
      }
      assert groups[..i] == groups;
      ok := true;
    }

    /** `_drain_once` with nothing interleaved; `up` says, push by push, whether pgvector answers
        (it answers again once the list is used up). */
    method DrainOnce(up: seq<bool>)
      requires UniqueIds(sqlite.rows)
      modifies this, sqlite, pgvec
      ensures
        var t := DrainResult(Stores(old(sqlite.rows), old(pgvec.docs)), batchSize, up);
        sqlite.rows == t.rows && pgvec.docs == t.pg
      ensures
        var listed := Take(Pending(old(sqlite.rows)), batchSize);
        if listed == [] then
          pgReachable == old(pgReachable) && backoff == old(backoff) && lastSyncDocs == old(lastSyncDocs)
        else if DrainFails(listed, up) then
          !pgReachable && lastSyncDocs == old(lastSyncDocs) && backoff == NextBackoff(old(backoff))
        else
          pgReachable && backoff == 1.0 && lastSyncDocs == |listed|
    {
      var unsynced := sqlite.ListUnsynced(batchSize);
      if unsynced == [] { return; }
      var groups := Group(unsynced);
      GroupByDomainShape(unsynced);
      DrainResultIs(Stores(sqlite.rows, pgvec.docs), batchSize, up);
      var ok, synced := PushGroups(groups, up);
      if ok {
        SameIds(Concat(groups), unsynced);
        sqlite.MarkSynced(synced);
        lastSyncDocs := |unsynced|;
        pgReachable := true;
        backoff := 1.0;
      } else {
        pgReachable := false;
        backoff := NextBackoff(backoff);
      }
    }
  }

  /** The replica after the first `k` batches. */
  function PutGroups(pg: Replica, groups: seq<seq<Doc>>, k: nat): Replica
    requires k <= |groups|
  {
    if k == 0 then pg else PutAll(PutGroups(pg, groups, k - 1), groups[k - 1])
  }

  lemma {:induction false} PushSomeGroups(s: State, k: nat)
    requires s.phase.Draining? && k <= |s.phase.todo|
    ensures PushSome(s, k) ==
        s.(pg := PutGroups(s.pg, s.phase.todo, k), phase := Draining(s.phase.listed, s.phase.todo[k..]))
    decreases k
  {
    if k > 0 {
      PushSomeGroups(s, k - 1);
      PushOneMore(s, k - 1);
      assert s.phase.todo[k - 1..][1..] == s.phase.todo[k..];
    }
  }

  lemma DrainResultIs(s: State, limit: nat, up: seq<bool>)
    requires s.phase.Idle? && Take(Pending(s.rows), limit) != []
    ensures
      var listed := Take(Pending(s.rows), limit);
      var groups := GroupByDomain(listed);
      var t := DrainResult(s, limit, up);
      if DrainFails(listed, up) then t.rows == s.rows && t.pg == PutGroups(s.pg, groups, Successes(up))
      else t.rows == MarkRows(s.rows, Ids(listed)) && t.pg == PutGroups(s.pg, groups, |groups|)
  {
    var t := Apply(s, DrainList(limit));
    if DrainFails(t.phase.listed, up) {
      PushSomeGroups(t, Successes(up));
    } else {
      PushSomeGroups(t, |t.phase.todo|);
      PushSomeIsAll(t, |t.phase.todo|);
    }
  }

  /** Exponential backoff capped at a minute. */
  function NextBackoff(b: real): real {
    if b * 2.0 <= 60.0 then b * 2.0 else 60.0
  }

  predicate DrainFails(listed: seq<Doc>, up: seq<bool>) {
    Successes(up) < |up| && Successes(up) < |GroupByDomain(listed)|
  }

  ghost function DrainResult(s: State, limit: nat, up: seq<bool>): State
    requires s.phase.Idle?
  {
    if DrainFails(Take(Pending(s.rows), limit), up) then FailedDrain(s, limit, Successes(up)) else FullDrain(s, limit)
  }

  lemma ConcatSnoc(groups: seq<seq<Doc>>, i: nat)
    requires i < |groups|
    ensures Ids(Concat(groups[..i + 1])) == Ids(Concat(groups[..i])) + Ids(groups[i])
    ensures groups[i..][0] == groups[i] && groups[i..][1..] == groups[i + 1..]
  {
    ConcatAppend(groups[..i], [groups[i]]);
    assert groups[..i + 1] == groups[..i] + [groups[i]];
    assert Concat([groups[i]]) == groups[i] + Concat([groups[i]][1..]);
  }

  lemma {:induction false} ConcatAppend(a: seq<seq<Doc>>, b: seq<seq<Doc>>)
    ensures Concat(a + b) == Concat(a) + Concat(b)
  {
    if a == [] {
      assert a + b == b;
    } else {
      assert (a + b)[1..] == a[1..] + b;
      ConcatAppend(a[1..], b);
    }
  }

  lemma {:induction false} SuccessesAt(up: seq<bool>, i: nat)
    ensures i < Successes(up) ==> up[i]
    ensures i == Successes(up) && i < |up| ==> !up[i]
    decreases |up|
  {
    if up != [] && up[0] && i > 0 {
      SuccessesAt(up[1..], i - 1);
    }
  }

  lemma SameIds(a: seq<Doc>, b: seq<Doc>)
    requires multiset(a) == multiset(b)
    ensures Ids(a) == Ids(b) && |a| == |b|
  {
    assert forall d :: d in a <==> d in multiset(a);
    assert forall d :: d in b <==> d in multiset(b);
    assert |multiset(a)| == |a| && |multiset(b)| == |b|;
  }

  lemma {:induction false} PushOneMore(s: State, k: nat)
    requires s.phase.Draining? && PushSome(s, k).phase.todo != []
    ensures PushSome(s, k + 1) == Apply(PushSome(s, k), DrainPush)
    decreases k
  {
    if k > 0 && s.phase.todo != [] {
      PushOneMore(Apply(s, DrainPush), k - 1);
    }
  }

  lemma {:induction false} PushSomeIsAll(s: State, k: nat)
    requires s.phase.Draining? && PushSome(s, k).phase.todo == []
    ensures PushAll(s) == PushSome(s, k).(phase := Draining(s.phase.listed, []))
    decreases k
  {
    if k > 0 && s.phase.todo != [] {
      PushSomeIsAll(Apply(s, DrainPush), k - 1);
    }
  }

  /** `delete_doc` and `delete_domain` of the two-tier backend: pgvector first, best effort. */
  method DeleteBoth(sqlite: SqliteDocs, pgvec: PgDocs, req: Delete, up: bool) returns (removed: bool)
    modifies sqlite, pgvec
    ensures
      var s := Stores(old(sqlite.rows), old(pgvec.docs));
      var t := Apply(Apply(s, DeleteInPg(req, up)), DeleteInSqlite(HalfDone(req, up)));
      sqlite.rows == t.rows && pgvec.docs == t.pg && t.deletes == s.deletes
    ensures removed <==> old(sqlite.rows) != sqlite.rows || old(pgvec.docs) != pgvec.docs
  {
    var pgBefore, rowsBefore := pgvec.docs, |sqlite.rows|;
    var ok := pgvec.DeleteWhere(req, up);
    KeepRowsShorter(sqlite.rows, req);
    sqlite.DeleteWhere(req);
    removed := pgvec.docs != pgBefore || |sqlite.rows| != rowsBefore;
  }

  lemma Assoc<T>(a: seq<T>, b: seq<T>, c: seq<T>)
    ensures a + (b + c) == a + b + c
    ensures b == [] ==> a + b == a
  {
  }

  lemma KeepRowsStep(rows: seq<Row>, i: nat, req: Delete)
    requires i < |rows|
    ensures KeepRows(rows[i..], req) ==
        (if Covers(req, rows[i].doc) then [] else [rows[i]]) + KeepRows(rows[i + 1..], req)
  {
    assert rows[i..][1..] == rows[i + 1..];
  }

  lemma {:induction false} KeepRowsShorter(rows: seq<Row>, req: Delete)
    ensures |KeepRows(rows, req)| <= |rows|
    ensures |KeepRows(rows, req)| == |rows| ==> KeepRows(rows, req) == rows
  {
    if rows != [] {
      KeepRowsShorter(rows[1..], req);
    }
  }
}
