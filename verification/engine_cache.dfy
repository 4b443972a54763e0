/** The sidecar's retrieval engines as a cache of the document table: which RPC calls keep every
    cached engine equal, as a multiset, to the documents the backend holds for its domain. */
module EngineCache {
  import Text
  import Bundle

  datatype Row = Row(id: string, domain: string, text: string)
  datatype Entry = Entry(id: string, text: string)

  /** `rows` is the `docs` table in `doc_key` order; `engines` is `_engines`. */
  datatype State = State(rows: seq<Row>, engines: map<string, seq<Entry>>)

  /** One line of `documents.jsonl`, with the id it is given: a good row, a row refused as
      `bundle_invalid`, or one whose exception the import does not catch. */
  datatype Line = Good(entry: Entry) | Bad | Breaks

  datatype Call =
    | Capture(domain: string, entry: Entry)
    | CaptureBatch(domain: string, items: seq<Entry>)
    | Delete(domain: string, id: string)
    | DeleteDomain(domain: string)
    | CreateDomain(domain: string, description: string)
    | Describe(domain: string, description: string)
    | Retrieve(domain: string)
    | ImportBundle(domain: string, aliased: bool, description: string, lines: seq<Line>, fails: bool)

  /** `Document.__post_init__`: neither the id nor the stripped text may be empty. */
  predicate Accepts(e: Entry) {
    e.id != "" && Text.Trim(Text.PySpace, e.text) != ""
  }

  // ---------- The table ----------

  /** The position of the row with this id, or `|rows|`. */
  function At(rows: seq<Row>, id: string): (k: nat)
    ensures k <= |rows|
    ensures k < |rows| ==> rows[k].id == id
    ensures forall j :: 0 <= j < k ==> rows[j].id != id
  {
    if rows == [] then 0
    else
      var k := At(rows[..|rows| - 1], id);
      if k < |rows| - 1 || rows[|rows| - 1].id == id then k else |rows|
  }

  predicate Holds(rows: seq<Row>, domain: string, id: string) {
    var k := At(rows, id);
    k < |rows| && rows[k].domain == domain
  }

  /** `_upsert_one_locked`: the row found by id alone is overwritten, its domain included. */
  function Put(rows: seq<Row>, r: Row): seq<Row> {
    var k := At(rows, r.id);
    if k < |rows| then rows[k := r] else rows + [r]
  }

  function PutAll(rows: seq<Row>, domain: string, items: seq<Entry>): seq<Row> {
    if items == [] then rows
    else
      var e := items[|items| - 1];
      Put(PutAll(rows, domain, items[..|items| - 1]), Row(e.id, domain, e.text))
  }

  /** The rows left when those of one domain, or only the one with this id, are deleted. */
  function Without(rows: seq<Row>, domain: string, all: bool, id: string): seq<Row> {
    if rows == [] then []
    else
      var r := rows[|rows| - 1];
      Without(rows[..|rows| - 1], domain, all, id) + if r.domain == domain && (all || r.id == id) then [] else [r]
  }

  /** `list_docs`, newest first. */
  function Listing(rows: seq<Row>, domain: string): seq<Entry> {
    if rows == [] then []
    else
      var r := rows[|rows| - 1];
      (if r.domain == domain then [Entry(r.id, r.text)] else []) + Listing(rows[..|rows| - 1], domain)
  }

  /** What the backend holds for a domain. */
  function Docs(rows: seq<Row>, domain: string): multiset<Entry> {
    multiset(Listing(rows, domain))
  }

  /** What hydration adds before the first document that raises. */
  function Hydrated(listing: seq<Entry>): seq<Entry> {
    if listing == [] || !Accepts(listing[0]) then [] else [listing[0]] + Hydrated(listing[1..])
  }

  /** Hydration is complete exactly when no document is refused. */
  lemma {:induction false} HydratedIff(listing: seq<Entry>)
    ensures Hydrated(listing) <= listing
    ensures forall e :: e in Hydrated(listing) ==> Accepts(e)
    ensures Hydrated(listing) == listing <==> forall e :: e in listing ==> Accepts(e)
  {
    hide Accepts;
    if listing != [] && Accepts(listing[0]) {
      HydratedIff(listing[1..]);
      assert listing == [listing[0]] + listing[1..];
    }
  }

  // ---------- The calls ----------

  function SeedText(domain: string, description: string): string {
    if description != "" then description else "Domain: " + domain
  }

  function Seed(domain: string, description: string): Entry {
    Entry(Bundle.SeedId(domain), SeedText(domain, description))
  }

  function Popped(engines: map<string, seq<Entry>>, domain: string): map<string, seq<Entry>> {
    engines - {domain}
  }

  /** How many lines come before the first that is not good. */
  function GoodLines(lines: seq<Line>): (k: nat)
    ensures k <= |lines| && forall j :: 0 <= j < k ==> lines[j].Good?
    ensures k < |lines| ==> !lines[k].Good?
  {
    if lines == [] || !lines[0].Good? then 0
    else
      var k := GoodLines(lines[1..]);
      assert forall j :: 0 < j <= k ==> lines[j] == lines[1..][j - 1];
      k + 1
  }

  function Entries(lines: seq<Line>, k: nat): (r: seq<Entry>)
    requires k <= |lines| && forall j :: 0 <= j < k ==> lines[j].Good?
    ensures |r| == k && forall j :: 0 <= j < k ==> r[j] == lines[j].entry
  {
    seq(k, j requires 0 <= j < k => lines[j].entry)
  }

  /** The documents that reached the table: all of them, or the full batches before the line that stopped the import. */
  function Written(c: Call): seq<Entry>
    requires c.ImportBundle?
  {
    var k := GoodLines(c.lines);
    Entries(c.lines, if k < |c.lines| then k - k % Bundle.BATCH else k)
  }

  predicate Refuses(rows: seq<Row>, c: Call)
    requires c.ImportBundle?
  {
    !Bundle.ValidDomain(c.domain) || Listing(rows, c.domain) != [] || c.aliased
  }

  predicate RollsBack(c: Call)
    requires c.ImportBundle?
  {
    GoodLines(c.lines) < |c.lines| && c.lines[GoodLines(c.lines)].Bad?
  }

  /** The import leaves through an exception, with what it wrote and the cached engine still in place. */
  predicate Escapes(c: Call)
    requires c.ImportBundle?
  {
    if GoodLines(c.lines) < |c.lines| then c.lines[GoodLines(c.lines)].Breaks? else c.fails
  }

  predicate Declines(rows: seq<Row>, c: Call)
    requires c.CreateDomain?
  {
    !Bundle.ValidDomain(c.domain) || Holds(rows, c.domain, Bundle.SeedId(c.domain))
  }

  function After(s: State, c: Call): State {
    match c
    case Capture(d, e) =>
      State(Put(s.rows, Row(e.id, d, e.text)),
            if d in s.engines && Accepts(e) then s.engines[d := s.engines[d] + [e]] else s.engines)
    case CaptureBatch(d, items) =>
      if items == [] then s else State(PutAll(s.rows, d, items), Popped(s.engines, d))
    case Delete(d, id) => State(Without(s.rows, d, false, id), Popped(s.engines, d))
    case DeleteDomain(d) => State(Without(s.rows, d, true, ""), Popped(s.engines, d))
    case CreateDomain(d, text) =>
      if Declines(s.rows, c) then s else State(PutAll(s.rows, d, [Seed(d, text)]), Popped(s.engines, d))
    case Describe(d, text) => State(PutAll(s.rows, d, [Seed(d, text)]), Popped(s.engines, d))
    case Retrieve(d) =>
      if Listing(s.rows, d) == [] || d in s.engines then s
      else State(s.rows, s.engines[d := Hydrated(Listing(s.rows, d))])
    case ImportBundle(d, _, text, _, _) =>
      if Refuses(s.rows, c) then s
      else
        var rows := PutAll(s.rows, d, [Seed(d, text)] + Written(c));
        if RollsBack(c) then State(Without(rows, d, true, ""), s.engines)
        else State(rows, if Escapes(c) then s.engines else Popped(s.engines, d))
  }

  // ---------- The agreement ----------

  ghost predicate Coherent(s: State) {
    forall d :: d in s.engines ==> multiset(s.engines[d]) == Docs(s.rows, d)
  }

  /** An engine holds only documents its constructor accepts. */
  ghost predicate Clean(s: State) {
    forall d, e :: d in s.engines && e in s.engines[d] ==> Accepts(e)
  }

  /** The id belongs to a row of another domain whose engine is cached. */
  predicate TakesFromCached(s: State, domain: string, id: string) {
    var k := At(s.rows, id);
    k < |s.rows| && s.rows[k].domain != domain && s.rows[k].domain in s.engines
  }

  ghost predicate TakesNone(s: State, domain: string, items: seq<Entry>) {
    forall k :: 0 <= k < |items| ==> !TakesFromCached(s, domain, items[k].id)
  }

  /** What a caller has to know before the call for the caches to stay right. */
  ghost predicate Safe(s: State, c: Call) {
    match c
    case Capture(d, e) =>
      && !TakesFromCached(s, d, e.id)
      && (d in s.engines ==> Accepts(e) && !Holds(s.rows, d, e.id))
    case CaptureBatch(d, items) => TakesNone(s, d, items)
    case Delete(_, _) => true
    case DeleteDomain(_) => true
    case CreateDomain(d, _) => Declines(s.rows, c) || !TakesFromCached(s, d, Bundle.SeedId(d))
    case Describe(d, _) => !TakesFromCached(s, d, Bundle.SeedId(d))
    case Retrieve(d) => forall k :: 0 <= k < |s.rows| && s.rows[k].domain == d ==>
      Accepts(Entry(s.rows[k].id, s.rows[k].text))
    case ImportBundle(d, _, _, _, _) =>
      || Refuses(s.rows, c)
      || (&& !TakesFromCached(s, d, Bundle.SeedId(d))
          && TakesNone(s, d, Written(c))
          && (Escapes(c) ==> d !in s.engines))
  }

  // ---------- What a write does to each domain ----------

  function Part(r: Row, domain: string): multiset<Entry> {
    if r.domain == domain then multiset{Entry(r.id, r.text)} else multiset{}
  }

  lemma DocsSnoc(rows: seq<Row>, r: Row, domain: string)
    ensures Docs(rows + [r], domain) == Docs(rows, domain) + Part(r, domain)
  {
    assert (rows + [r])[..|rows|] == rows;
  }

  lemma {:induction false} DocsUpdate(rows: seq<Row>, k: nat, r: Row, domain: string)
    requires k < |rows|
    ensures Docs(rows[k := r], domain) + Part(rows[k], domain) == Docs(rows, domain) + Part(r, domain)
  {
    hide Docs, Listing, Part;
    var n := |rows| - 1;
    assert rows == rows[..n] + [rows[n]];
    DocsSnoc(rows[..n], rows[n], domain);
    if k == n {
      assert rows[k := r] == rows[..n] + [r];
      DocsSnoc(rows[..n], r, domain);
    } else {
      assert rows[k := r] == rows[..n][k := r] + [rows[n]];
      DocsSnoc(rows[..n][k := r], rows[n], domain);
      DocsUpdate(rows[..n], k, r, domain);
      assert rows[..n][k] == rows[k];
      var x, y, last := Docs(rows[..n][k := r], domain), Docs(rows[..n], domain), Part(rows[n], domain);
      assert (x + last) + Part(rows[k], domain) == (x + Part(rows[k], domain)) + last;
      assert (y + last) + Part(r, domain) == (y + Part(r, domain)) + last;
    }
  }

  /** A write moves the row to its new domain: out of the domain that held the id, into its own. */
  lemma PutMoves(rows: seq<Row>, r: Row, domain: string)
    ensures domain == r.domain ==> Entry(r.id, r.text) in Docs(Put(rows, r), domain)
    ensures Holds(rows, domain, r.id) ==>
        |Docs(Put(rows, r), domain)| == |Docs(rows, domain)| - if domain == r.domain then 0 else 1
    ensures !Holds(rows, domain, r.id) ==> Docs(Put(rows, r), domain) == Docs(rows, domain) + Part(r, domain)
  {
    hide Docs, Listing, At;
    var k := At(rows, r.id);
    if k < |rows| {
      DocsUpdate(rows, k, r, domain);
      var was, now := Docs(rows, domain), Docs(rows[k := r], domain);
      assert |now + Part(rows[k], domain)| == |now| + |Part(rows[k], domain)|;
      assert |was + Part(r, domain)| == |was| + |Part(r, domain)|;
      if domain == r.domain {
        RowListed(rows[k := r], k, domain);
      }
    } else {
      DocsSnoc(rows, r, domain);
    }
  }

  lemma {:induction false} RowListed(rows: seq<Row>, k: nat, domain: string)
    requires k < |rows| && rows[k].domain == domain
    ensures Entry(rows[k].id, rows[k].text) in Listing(rows, domain)
    ensures Entry(rows[k].id, rows[k].text) in Docs(rows, domain)
  {
    if k < |rows| - 1 {
      RowListed(rows[..|rows| - 1], k, domain);
    }
  }

  lemma {:induction false} ListedRow(rows: seq<Row>, domain: string, e: Entry) returns (k: nat)
    requires e in Listing(rows, domain)
    ensures k < |rows| && rows[k] == Row(e.id, domain, e.text)
  {
    var n := |rows| - 1;
    if rows[n] == Row(e.id, domain, e.text) {
      k := n;
    } else {
      k := ListedRow(rows[..n], domain, e);
    }
  }

  lemma HoldsAfterPut(rows: seq<Row>, r: Row, domain: string, id: string)
    ensures Holds(Put(rows, r), domain, id) <==> if id == r.id then domain == r.domain else Holds(rows, domain, id)
  {
    hide At;
    var next := Put(rows, r);
    assert forall j :: 0 <= j < |rows| ==> next[j].id == rows[j].id;
    var was, now := At(rows, id), At(next, id);
    if was < |rows| {
      assert next[was].id == id;
      assert now == was;
      assert id != r.id ==> next[was] == rows[was];
    } else if id == r.id {
      assert next[was] == r;
    }
  }

  ghost predicate HoldsOne(rows: seq<Row>, domain: string, items: seq<Entry>) {
    exists k :: 0 <= k < |items| && Holds(rows, domain, items[k].id)
  }

  /** Writing into one domain leaves another exactly as it was, unless it takes one of its ids. */
  lemma {:induction false} PutAllElsewhere(
    rows: seq<Row>, target: string, items: seq<Entry>, domain: string, id: string)
    requires domain != target
    ensures HoldsOne(rows, domain, items) ==> |Docs(PutAll(rows, target, items), domain)| < |Docs(rows, domain)|
    ensures !HoldsOne(rows, domain, items) ==> Docs(PutAll(rows, target, items), domain) == Docs(rows, domain)
    ensures !HoldsOne(rows, domain, items) ==> Holds(PutAll(rows, target, items), domain, id) == Holds(rows, domain, id)
  {
    hide Docs, Holds, Put;
    if items != [] {
      var n := |items| - 1;
      var first, e := PutAll(rows, target, items[..n]), items[n];
      PutAllElsewhere(rows, target, items[..n], domain, id);
      PutAllElsewhere(rows, target, items[..n], domain, e.id);
      assert HoldsOne(rows, domain, items) <==> HoldsOne(rows, domain, items[..n]) || Holds(rows, domain, e.id) by {
        HoldsOneSnoc(rows, domain, items);
      }
      PutMoves(first, Row(e.id, target, e.text), domain);
      HoldsAfterPut(first, Row(e.id, target, e.text), domain, id);
    }
  }

  lemma HoldsOneSnoc(rows: seq<Row>, domain: string, items: seq<Entry>)
    requires items != []
    ensures HoldsOne(rows, domain, items) <==>
        HoldsOne(rows, domain, items[..|items| - 1]) || Holds(rows, domain, items[|items| - 1].id)
  {
    hide Holds;
    var n := |items| - 1;
    if HoldsOne(rows, domain, items[..n]) {
      var k :| 0 <= k < n && Holds(rows, domain, items[..n][k].id);
      assert Holds(rows, domain, items[k].id);
    }
    if HoldsOne(rows, domain, items) {
      var k :| 0 <= k < |items| && Holds(rows, domain, items[k].id);
      assert k < n ==> items[..n][k] == items[k];
    }
  }

  lemma WithoutSnoc(rows: seq<Row>, r: Row, target: string, all: bool, id: string)
    ensures
      var left := Without(rows, target, all, id);
      Without(rows + [r], target, all, id) == if r.domain == target && (all || r.id == id) then left else left + [r]
  {
    assert (rows + [r])[..|rows|] == rows;
    assert Without(rows, target, all, id) + [] == Without(rows, target, all, id);
  }

  /** What a delete leaves of each domain. */
  ghost predicate WithoutOk(rows: seq<Row>, target: string, all: bool, id: string, domain: string) {
    var left := Docs(Without(rows, target, all, id), domain);
    && (domain != target ==> left == Docs(rows, domain))
    && (domain == target && all ==> left == multiset{})
  }

  lemma WithoutStep(rows: seq<Row>, r: Row, target: string, all: bool, id: string, domain: string)
    requires WithoutOk(rows, target, all, id, domain)
    ensures WithoutOk(rows + [r], target, all, id, domain)
  {
    hide Docs, Without;
    WithoutSnoc(rows, r, target, all, id);
    DocsSnoc(rows, r, domain);
    DocsSnoc(Without(rows, target, all, id), r, domain);
  }

  lemma {:induction false} WithoutElsewhere(rows: seq<Row>, target: string, all: bool, id: string, domain: string)
    ensures domain != target ==> Docs(Without(rows, target, all, id), domain) == Docs(rows, domain)
    ensures domain == target && all ==> Docs(Without(rows, target, all, id), domain) == multiset{}
  {
    assert WithoutOk([], target, all, id, domain);
    hide Docs, Without;
    if rows != [] {
      var n := |rows| - 1;
      WithoutElsewhere(rows[..n], target, all, id, domain);
      WithoutStep(rows[..n], rows[n], target, all, id, domain);
      assert rows[..n] + [rows[n]] == rows;
    }
  }

  // ---------- Exactly when a call keeps the agreement ----------

  /** The engines of the domains other than the one a call writes to still agree. */
  ghost predicate OthersAgree(s: State, target: string, rows: seq<Row>) {
    forall d :: d in s.engines && d != target ==> multiset(s.engines[d]) == Docs(rows, d)
  }

  lemma WriteIff(s: State, target: string, items: seq<Entry>)
    requires Coherent(s)
    ensures OthersAgree(s, target, PutAll(s.rows, target, items)) <==> TakesNone(s, target, items)
  {
    hide Docs, PutAll, At;
    var rows := PutAll(s.rows, target, items);
    forall d | d in s.engines && d != target
      ensures HoldsOne(s.rows, d, items) <==> multiset(s.engines[d]) != Docs(rows, d)
    {
      PutAllElsewhere(s.rows, target, items, d, "");
    }
    forall d | d in s.engines && d != target && HoldsOne(s.rows, d, items)
      ensures exists k :: 0 <= k < |items| && TakesFromCached(s, target, items[k].id)
    {
      var k :| 0 <= k < |items| && Holds(s.rows, d, items[k].id);
      assert TakesFromCached(s, target, items[k].id);
    }
    forall k | 0 <= k < |items| && TakesFromCached(s, target, items[k].id)
      ensures HoldsOne(s.rows, s.rows[At(s.rows, items[k].id)].domain, items)
    {
      assert Holds(s.rows, s.rows[At(s.rows, items[k].id)].domain, items[k].id);
    }
  }

  lemma CaptureIff(s: State, d: string, e: Entry)
    requires Coherent(s) && Clean(s)
    ensures Coherent(After(s, Capture(d, e))) <==> Safe(s, Capture(d, e))
  {
    hide Docs, Put, At, Accepts, Holds, TakesFromCached, Clean, Safe, OthersAgree, Coherent;
    var t := After(s, Capture(d, e));
    CaptureOthers(s, d, e);
    SafeCapture(s, d, e);
    if d in s.engines {
      CaptureOwn(s, d, e);
      OneEngine(s, d, t.rows, t.engines[d]);
      assert t.engines == s.engines[d := t.engines[d]];
    } else {
      NoEngine(s, d, t.rows);
    }
  }

  lemma OneEngine(s: State, d: string, rows: seq<Row>, engine: seq<Entry>)
    requires d in s.engines
    ensures Coherent(State(rows, s.engines[d := engine])) <==>
        OthersAgree(s, d, rows) && multiset(engine) == Docs(rows, d)
  {
    hide Docs;
    var t := State(rows, s.engines[d := engine]);
    assert t.engines[d] == engine;
    assert forall e :: e in s.engines && e != d ==> e in t.engines && t.engines[e] == s.engines[e];
  }

  lemma NoEngine(s: State, d: string, rows: seq<Row>)
    requires d !in s.engines
    ensures Coherent(State(rows, s.engines)) <==> OthersAgree(s, d, rows)
  {
    hide Docs;
  }

  lemma SafeCapture(s: State, d: string, e: Entry)
    ensures Safe(s, Capture(d, e)) <==>
        !TakesFromCached(s, d, e.id) && (d in s.engines ==> Accepts(e) && !Holds(s.rows, d, e.id))
  {
    hide TakesFromCached, Accepts, Holds;
  }

  lemma CaptureOthers(s: State, d: string, e: Entry)
    requires Coherent(s)
    ensures OthersAgree(s, d, Put(s.rows, Row(e.id, d, e.text))) <==> !TakesFromCached(s, d, e.id)
  {
    hide Put, TakesFromCached, OthersAgree, TakesNone, Coherent;
    WriteIff(s, d, [e]);
    TakesOne(s, d, e);
    PutAllOne(s.rows, d, e);
  }

  lemma TakesOne(s: State, d: string, e: Entry)
    ensures TakesNone(s, d, [e]) <==> !TakesFromCached(s, d, e.id)
  {
    assert [e][0] == e;
  }

  /** The domain's own engine follows the capture exactly when the document is accepted and new there. */
  lemma CaptureOwn(s: State, d: string, e: Entry)
    requires Coherent(s) && Clean(s) && d in s.engines
    ensures
      var t := After(s, Capture(d, e));
      multiset(t.engines[d]) == Docs(t.rows, d) <==> Accepts(e) && !Holds(s.rows, d, e.id)
  {
    hide Docs, Put, At, Accepts, Holds;
    var t := After(s, Capture(d, e));
    PutMoves(s.rows, Row(e.id, d, e.text), d);
    assert Part(Row(e.id, d, e.text), d) == multiset{e};
    if Accepts(e) {
      assert multiset(t.engines[d]) == multiset(s.engines[d]) + multiset{e};
    } else {
      assert e !in s.engines[d];
    }
  }

  lemma SafeRetrieve(s: State, d: string)
    ensures Safe(s, Retrieve(d)) <==> forall e :: e in Listing(s.rows, d) ==> Accepts(e)
  {
    hide Accepts, Listing;
    forall k | 0 <= k < |s.rows| && s.rows[k].domain == d
      ensures Entry(s.rows[k].id, s.rows[k].text) in Listing(s.rows, d)
    {
      RowListed(s.rows, k, d);
    }
    forall e | e in Listing(s.rows, d) ensures exists k :: 0 <= k < |s.rows| && s.rows[k] == Row(e.id, d, e.text) {
      var k := ListedRow(s.rows, d, e);
    }
  }

  lemma RetrieveIff(s: State, d: string)
    requires Coherent(s) && Clean(s)
    ensures Coherent(After(s, Retrieve(d))) <==> Safe(s, Retrieve(d))
  {
    hide Accepts, Listing, Hydrated, Safe;
    var listing := Listing(s.rows, d);
    SafeRetrieve(s, d);
    if d in s.engines {
      forall e | e in listing ensures Accepts(e) {
        assert e in multiset(s.engines[d]);
      }
    } else if listing != [] {
      var r := Hydrated(listing);
      HydratedIff(listing);
      assert |multiset(r)| == |r| && |multiset(listing)| == |listing|;
      assert |r| == |listing| ==> r == listing;
      assert Coherent(After(s, Retrieve(d))) <==> multiset(r) == multiset(listing) by {
        assert After(s, Retrieve(d)).engines == s.engines[d := r];
        assert Docs(s.rows, d) == multiset(listing);
        hide Docs, Hydrated;
      }
    }
  }

  lemma ImportIff(s: State, c: Call)
    requires Coherent(s) && c.ImportBundle?
    ensures Coherent(After(s, c)) <==> Safe(s, c)
  {
    hide Docs, PutAll, TakesFromCached, TakesNone, Written, Refuses, Without, RollsBack, Escapes, Coherent, OthersAgree;
    if !Refuses(s.rows, c) {
      var seed := Seed(c.domain, c.description);
      ImportWrites(s.rows, c);
      ImportedIds(s, c.domain, seed, Written(c));
      ImportCases(s, c.domain, PutAll(s.rows, c.domain, [seed] + Written(c)));
    }
    EscapesOrNot(c);
  }

  lemma EscapesOrNot(c: Call)
    requires c.ImportBundle?
    ensures !(Escapes(c) && RollsBack(c))
  {
  }

  lemma ImportWrites(rows: seq<Row>, c: Call)
    requires c.ImportBundle? && !Refuses(rows, c)
    ensures Docs(rows, c.domain) == multiset{}
    ensures Docs(PutAll(rows, c.domain, [Seed(c.domain, c.description)] + Written(c)), c.domain) != multiset{}
  {
    hide Written, Put, Seed;
    assert Docs(rows, c.domain) == multiset([]);
    hide Listing;
    var items := [Seed(c.domain, c.description)] + Written(c);
    var e := items[|items| - 1];
    PutMoves(PutAll(rows, c.domain, items[..|items| - 1]), Row(e.id, c.domain, e.text), c.domain);
  }

  /** The three ways out of an import that began with an empty domain. */
  lemma ImportCases(s: State, d: string, rows: seq<Row>)
    requires Coherent(s) && Docs(s.rows, d) == multiset{} && Docs(rows, d) != multiset{}
    ensures Coherent(State(Without(rows, d, true, ""), s.engines)) <==> OthersAgree(s, d, rows)
    ensures Coherent(State(rows, s.engines)) <==> OthersAgree(s, d, rows) && d !in s.engines
    ensures Coherent(State(rows, Popped(s.engines, d))) <==> OthersAgree(s, d, rows)
  {
    hide Docs, Without;
    forall e ensures Docs(Without(rows, d, true, ""), e) == if e != d then Docs(rows, e) else multiset{} {
      WithoutElsewhere(rows, d, true, "", e);
    }
  }

  lemma ImportedIds(s: State, d: string, seed: Entry, written: seq<Entry>)
    requires Coherent(s)
    ensures OthersAgree(s, d, PutAll(s.rows, d, [seed] + written))
            <==> !TakesFromCached(s, d, seed.id) && TakesNone(s, d, written)
  {
    hide PutAll, TakesFromCached, OthersAgree, Coherent;
    var items := [seed] + written;
    WriteIff(s, d, items);
    assert items[0] == seed;
    forall k | 0 <= k < |written| ensures items[k + 1] == written[k] {
    }
    assert forall k :: 0 < k < |items| ==> items[k] == written[k - 1];
  }

  /** A call leaves every cached engine in agreement with the backend if and only if it is safe in
      the sense its caller can check; and an engine never holds a document its constructor refuses. */
  lemma CoherentIff(s: State, c: Call)
    requires Coherent(s) && Clean(s)
    ensures Clean(After(s, c))
    ensures Coherent(After(s, c)) <==> Safe(s, c)
  {
    hide Docs, PutAll, At, Accepts, TakesFromCached, Without, Listing, Put, Holds;
    match c
    case Capture(d, e) => CaptureIff(s, d, e);
    case CaptureBatch(d, items) => WriteIff(s, d, items);
    case Delete(d, id) =>
      forall e | e != d ensures Docs(Without(s.rows, d, false, id), e) == Docs(s.rows, e) {
        WithoutElsewhere(s.rows, d, false, id, e);
      }
    case DeleteDomain(d) =>
      forall e | e != d ensures Docs(Without(s.rows, d, true, ""), e) == Docs(s.rows, e) {
        WithoutElsewhere(s.rows, d, true, "", e);
      }
    case CreateDomain(d, text) => SeedIff(s, d, text);
    case Describe(d, text) => SeedIff(s, d, text);
    case Retrieve(d) => RetrieveIff(s, d); HydratedIff(Listing(s.rows, d));
    case ImportBundle(_, _, _, _, _) => ImportIff(s, c);
  }

  lemma SeedIff(s: State, d: string, text: string)
    requires Coherent(s)
    ensures Coherent(State(PutAll(s.rows, d, [Seed(d, text)]), Popped(s.engines, d))) <==>
        !TakesFromCached(s, d, Bundle.SeedId(d))
  {
    hide Docs, PutAll, TakesFromCached;
    WriteIff(s, d, [Seed(d, text)]);
    TakesOne(s, d, Seed(d, text));
  }

  // ---------- Whole runs ----------

  /** No other domain owns the id. */
  predicate AtHome(rows: seq<Row>, domain: string, id: string) {
    var k := At(rows, id);
    k < |rows| ==> rows[k].domain == domain
  }

  ghost predicate AllAtHome(rows: seq<Row>, domain: string, items: seq<Entry>) {
    forall k :: 0 <= k < |items| ==> AtHome(rows, domain, items[k].id) && Accepts(items[k])
  }

  /** Fresh capture ids, texts that are not blank, and no id borrowed from another domain. */
  ghost predicate Ordinary(s: State, c: Call) {
    match c
    case Capture(_, e) => At(s.rows, e.id) == |s.rows| && Accepts(e)
    case CaptureBatch(d, items) => AllAtHome(s.rows, d, items)
    case Delete(_, _) => true
    case DeleteDomain(_) => true
    case CreateDomain(d, text) => AllAtHome(s.rows, d, [Seed(d, text)])
    case Describe(d, text) => AllAtHome(s.rows, d, [Seed(d, text)])
    case Retrieve(_) => true
    case ImportBundle(d, _, text, _, _) => AllAtHome(s.rows, d, [Seed(d, text)] + Written(c))
  }

  ghost predicate AllAccepted(rows: seq<Row>) {
    forall k :: 0 <= k < |rows| ==> Accepts(Entry(rows[k].id, rows[k].text))
  }

  /** Engines agree with the table, none is cached for an empty domain, and every row can be hydrated. */
  ghost predicate Healthy(s: State) {
    Coherent(s) && Clean(s) && AllAccepted(s.rows) && NoneEmpty(s.engines)
  }

  ghost predicate NoneEmpty(engines: map<string, seq<Entry>>) {
    forall d :: d in engines ==> engines[d] != []
  }

  lemma {:induction false} PutAllAccepted(rows: seq<Row>, d: string, items: seq<Entry>)
    requires AllAccepted(rows) && forall k :: 0 <= k < |items| ==> Accepts(items[k])
    ensures AllAccepted(PutAll(rows, d, items))
  {
    hide Accepts;
    if items != [] {
      PutAllAccepted(rows, d, items[..|items| - 1]);
    }
  }

  lemma {:induction false} WithoutAccepted(rows: seq<Row>, d: string, all: bool, id: string)
    requires AllAccepted(rows)
    ensures AllAccepted(Without(rows, d, all, id))
  {
    hide Accepts;
    if rows != [] {
      WithoutAccepted(rows[..|rows| - 1], d, all, id);
    }
  }

  lemma OrdinaryIsSafe(s: State, c: Call)
    requires Healthy(s) && Ordinary(s, c)
    ensures Safe(s, c)
  {
    hide Accepts, Listing, Written;
    match c
    case CreateDomain(d, text) => assert [Seed(d, text)][0].id == Bundle.SeedId(d);
    case Describe(d, text) => assert [Seed(d, text)][0].id == Bundle.SeedId(d);
    case ImportBundle(d, _, text, _, _) =>
      var items := [Seed(d, text)] + Written(c);
      assert items[0].id == Bundle.SeedId(d);
      assert forall k :: 0 <= k < |Written(c)| ==> items[k + 1] == Written(c)[k];
      assert !Refuses(s.rows, c) ==> Docs(s.rows, d) == multiset([]);
      assert d in s.engines ==> s.engines[d][0] in multiset(s.engines[d]);
    case _ =>
  }

  lemma OrdinaryRows(s: State, c: Call)
    requires AllAccepted(s.rows) && Ordinary(s, c)
    ensures AllAccepted(After(s, c).rows)
  {
    hide Accepts, Written, Hydrated, AllAccepted, At, Put, Seed, Popped, RollsBack, Escapes;
    match c
    case Capture(d, e) => PutAllAccepted(s.rows, d, [e]); PutAllOne(s.rows, d, e);
    case CaptureBatch(d, items) => PutAllAccepted(s.rows, d, items);
    case Delete(d, id) => WithoutAccepted(s.rows, d, false, id);
    case DeleteDomain(d) => WithoutAccepted(s.rows, d, true, "");
    case CreateDomain(d, text) => PutAllAccepted(s.rows, d, [Seed(d, text)]);
    case Describe(d, text) => PutAllAccepted(s.rows, d, [Seed(d, text)]);
    case Retrieve(_) =>
    case ImportBundle(d, _, text, _, _) =>
      var items := [Seed(d, text)] + Written(c);
      PutAllAccepted(s.rows, d, items);
      WithoutAccepted(PutAll(s.rows, d, items), d, true, "");
  }

  lemma PutAllOne(rows: seq<Row>, d: string, e: Entry)
    ensures PutAll(rows, d, [e]) == Put(rows, Row(e.id, d, e.text))
  {
    assert [e][..0] == [];
  }

  lemma EnginesFilled(s: State, c: Call)
    requires AllAccepted(s.rows) && NoneEmpty(s.engines)
    ensures NoneEmpty(After(s, c).engines)
  {
    hide Accepts, Written, Put, PutAll, Without, Refuses, RollsBack, Escapes, Declines, Seed;
    if c.Retrieve? && Listing(s.rows, c.domain) != [] {
      var k := ListedRow(s.rows, c.domain, Listing(s.rows, c.domain)[0]);
      hide Listing;
    }
  }

  lemma OrdinaryStep(s: State, c: Call)
    requires Healthy(s) && Ordinary(s, c)
    ensures Healthy(After(s, c))
  {
    hide Ordinary, Safe, Coherent, Clean, AllAccepted, NoneEmpty, After;
    OrdinaryIsSafe(s, c);
    CoherentIff(s, c);
    OrdinaryRows(s, c);
    EnginesFilled(s, c);
  }

  function Run(s: State, calls: seq<Call>): State
    decreases |calls|
  {
    if calls == [] then s else Run(After(s, calls[0]), calls[1..])
  }

  ghost predicate OrdinaryRun(s: State, calls: seq<Call>)
    decreases |calls|
  {
    calls == [] || (Ordinary(s, calls[0]) && OrdinaryRun(After(s, calls[0]), calls[1..]))
  }

  /** After any run of ordinary calls, failed imports included, a retrieval answers from an engine
      holding exactly the documents the backend has for the domain. */
  lemma {:induction false} OrdinaryRuns(s: State, calls: seq<Call>, domain: string)
    requires Healthy(s) && OrdinaryRun(s, calls)
    ensures
      var t := Run(s, calls);
      && Healthy(t)
      && (Docs(t.rows, domain) != multiset{} ==>
            var u := After(t, Retrieve(domain));
            domain in u.engines && multiset(u.engines[domain]) == Docs(t.rows, domain))
    decreases |calls|
  {
    if calls == [] {
      OrdinaryIsSafe(s, Retrieve(domain));
      CoherentIff(s, Retrieve(domain));
    } else {
      OrdinaryStep(s, calls[0]);
      OrdinaryRuns(After(s, calls[0]), calls[1..], domain);
    }
  }

  /** The ids must be fresh: capturing an id again while its domain is cached leaves the old text beside the new. */
  lemma RecaptureBreaks(domain: string, e: Entry, text: string)
    requires Accepts(e) && Accepts(Entry(e.id, text))
    ensures
      var s := State([Row(e.id, domain, e.text)], map[domain := [e]]);
      && Healthy(s)
      && After(s, Capture(domain, Entry(e.id, text))).engines[domain] == [e, Entry(e.id, text)]
      && Listing(After(s, Capture(domain, Entry(e.id, text))).rows, domain) == [Entry(e.id, text)]
      && !Coherent(After(s, Capture(domain, Entry(e.id, text))))
  {
    hide Accepts;
    OneRow(domain, e, text);
    OneRow(domain, Entry(e.id, text), text);
    hide Listing, Put;
    var s := State([Row(e.id, domain, e.text)], map[domain := [e]]);
    var t := After(s, Capture(domain, Entry(e.id, text)));
    assert |multiset(t.engines[domain])| == 2 && |Docs(t.rows, domain)| == 1;
  }

  lemma OneRow(domain: string, e: Entry, text: string)
    ensures Listing([Row(e.id, domain, e.text)], domain) == [e]
    ensures Put([Row(e.id, domain, e.text)], Row(e.id, domain, text)) == [Row(e.id, domain, text)]
  {
    assert [Row(e.id, domain, e.text)][..0] == [];
  }

  // ---------- The sidecar ----------

  lemma {:induction false} PutAllAppend(rows: seq<Row>, d: string, a: seq<Entry>, b: seq<Entry>)
    ensures PutAll(rows, d, a + b) == PutAll(PutAll(rows, d, a), d, b)
  {
    if b == [] {
      assert a + b == a;
    } else {
      assert (a + b)[..|a + b| - 1] == a + b[..|b| - 1];
      PutAllAppend(rows, d, a, b[..|b| - 1]);
    }
  }

  ghost predicate HydratedTo(docs: seq<Entry>, k: nat) {
    k <= |docs| && Hydrated(docs) == docs[..k] + Hydrated(docs[k..])
  }

  lemma HydrateStart(docs: seq<Entry>)
    ensures HydratedTo(docs, 0)
  {
    assert docs[..0] == [] && docs[0..] == docs;
  }

  lemma HydrateStep(docs: seq<Entry>, k: nat)
    requires HydratedTo(docs, k) && k < |docs|
    ensures Accepts(docs[k]) ==> HydratedTo(docs, k + 1) && docs[..k] + [docs[k]] == docs[..k + 1]
    ensures !Accepts(docs[k]) ==> Hydrated(docs) == docs[..k] && |Hydrated(docs)| < |docs|
  {
    hide Accepts, Hydrated;
    SplitAt(docs, k);
    HydratedHead(docs[k], docs[k + 1..]);
    Regroup(docs[..k], [docs[k]], Hydrated(docs[k + 1..]));
  }

  lemma SplitAt(docs: seq<Entry>, k: nat)
    requires k < |docs|
    ensures docs[k..] == [docs[k]] + docs[k + 1..] && docs[..k] + [docs[k]] == docs[..k + 1]
  {
  }

  lemma Regroup(a: seq<Entry>, b: seq<Entry>, c: seq<Entry>)
    ensures a + (b + c) == (a + b) + c && a + [] == a
  {
  }

  lemma HydratedHead(e: Entry, tail: seq<Entry>)
    ensures Hydrated([e] + tail) == if Accepts(e) then [e] + Hydrated(tail) else []
  {
    hide Accepts;
    assert ([e] + tail)[1..] == tail;
  }

  lemma HydrateEnd(docs: seq<Entry>)
    requires HydratedTo(docs, |docs|)
    ensures Hydrated(docs) == docs == docs[..|docs|]
  {
  }

  lemma ImportAfter(s: State, c: Call)
    requires c.ImportBundle?
    ensures
      After(s, c) ==
      if Refuses(s.rows, c) then s
      else
        var rows := PutAll(s.rows, c.domain, [Seed(c.domain, c.description)] + Written(c));
        if RollsBack(c) then State(Without(rows, c.domain, true, ""), s.engines)
        else State(rows, if Escapes(c) then s.engines else Popped(s.engines, c.domain))
  {
  }

  class Sidecar {
    var rows: seq<Row>
    var engines: map<string, seq<Entry>>

    ghost function Now(): State
      reads this
    {
      State(rows, engines)
    }

    constructor (rows: seq<Row>)
      ensures Now() == State(rows, map[])
    {
      this.rows, engines := rows, map[];
    }

    method Upsert(domain: string, e: Entry)
      modifies this`rows
      ensures rows == Put(old(rows), Row(e.id, domain, e.text))
    {
      var k := 0;
      while k < |rows| && rows[k].id != e.id
        invariant 0 <= k <= |rows|
        invariant forall j :: 0 <= j < k ==> rows[j].id != e.id
      {
        k := k + 1;
      }
      var r := Row(e.id, domain, e.text);
      rows := if k < |rows| then rows[k := r] else rows + [r];
    }

    method UpsertBatch(domain: string, items: seq<Entry>)
      modifies this`rows
      ensures rows == PutAll(old(rows), domain, items)
    {
      var k := 0;
      assert items[..0] == [];
      while k < |items|
        invariant 0 <= k <= |items|
        invariant rows == PutAll(old(rows), domain, items[..k])
      {
        assert items[..k + 1][..k] == items[..k];
        Upsert(domain, items[k]);
        k := k + 1;
      }
      assert items[..k] == items;
    }

    /** `method_capture`: false when registering the document with the cached engine raises. */
    method Capture(domain: string, e: Entry) returns (registered: bool)
      modifies this
      ensures Now() == After(old(Now()), Call.Capture(domain, e))
      ensures registered <==> domain in old(engines) ==> Accepts(e)
    {
      Upsert(domain, e);
      if domain !in engines { return true; }
      if !Accepts(e) { return false; }
      engines := engines[domain := engines[domain] + [e]];
      return true;
    }

    method CaptureBatch(domain: string, items: seq<Entry>)
      modifies this
      ensures Now() == After(old(Now()), Call.CaptureBatch(domain, items))
    {
      if items == [] { return; }
      UpsertBatch(domain, items);
      engines := engines - {domain};
    }

    /** `_get_engine` on a miss: the engine is cached before the first document is added to it. */
    method Hydrate(domain: string) returns (complete: bool)
      requires domain !in engines
      modifies this`engines
      ensures engines == old(engines)[domain := Hydrated(Listing(rows, domain))]
      ensures complete <==> forall e :: e in Listing(rows, domain) ==> Accepts(e)
    {
      hide Accepts, Listing, Hydrated;
      var docs := Listing(rows, domain);
      HydratedIff(docs);
      HydrateStart(docs);
      engines := engines[domain := []];
      var k := 0;
      while k < |docs|
        invariant HydratedTo(docs, k)
        invariant engines == old(engines)[domain := docs[..k]]
      {
        HydrateStep(docs, k);
        if !Accepts(docs[k]) { return false; }
        engines := engines[domain := engines[domain] + [docs[k]]];
        k := k + 1;
      }
      HydrateEnd(docs);
      return true;
    }

    /** `method_retrieve` and `method_build_context` as far as the cache goes. */
    method Retrieve(domain: string) returns (answered: bool)
      modifies this`engines
      ensures Now() == After(old(Now()), Call.Retrieve(domain))
      ensures answered <==> domain in old(engines) || forall e :: e in Listing(rows, domain) ==> Accepts(e)
    {
      hide Accepts, Listing, Hydrated;
      if Listing(rows, domain) == [] || domain in engines { return true; }
      answered := Hydrate(domain);
    }

    method DeleteRows(domain: string, all: bool, id: string)
      modifies this`rows
      ensures rows == Without(old(rows), domain, all, id)
    {
      var left: seq<Row> := [];
      var k := 0;
      while k < |rows|
        invariant 0 <= k <= |rows|
        invariant left == Without(rows[..k], domain, all, id)
      {
        assert rows[..k + 1][..k] == rows[..k];
        if rows[k].domain != domain || !(all || rows[k].id == id) {
          left := left + [rows[k]];
        }
        k := k + 1;
      }
      assert rows[..k] == rows;
      rows := left;
    }

    method Delete(domain: string, id: string)
      modifies this
      ensures Now() == After(old(Now()), Call.Delete(domain, id))
    {
      DeleteRows(domain, false, id);
      engines := engines - {domain};
    }

    method DeleteDomain(domain: string)
      modifies this
      ensures Now() == After(old(Now()), Call.DeleteDomain(domain))
    {
      DeleteRows(domain, true, "");
      engines := engines - {domain};
    }

    method Describe(domain: string, description: string)
      modifies this
      ensures Now() == After(old(Now()), Call.Describe(domain, description))
    {
      UpsertBatch(domain, [Seed(domain, description)]);
      engines := engines - {domain};
    }

    method CreateDomain(domain: string, description: string) returns (ok: bool)
      modifies this
      ensures Now() == After(old(Now()), Call.CreateDomain(domain, description))
      ensures ok <==> !Declines(old(rows), Call.CreateDomain(domain, description))
    {
      if !Bundle.ValidDomain(domain) || Holds(rows, domain, Bundle.SeedId(domain)) { return false; }
      Describe(domain, description);
      return true;
    }

    /** `method_import_domain` as far as documents and the cache go; `fails` says that something after
        the documents raises. */
    method ImportBundle(domain: string, aliased: bool, description: string, lines: seq<Line>, fails: bool)
      modifies this
      ensures Now() == After(old(Now()), Call.ImportBundle(domain, aliased, description, lines, fails))
    {
      hide Put, PutAll, Listing, Without, Bundle.ValidDomain, After, Seed;
      ghost var c := Call.ImportBundle(domain, aliased, description, lines, fails);
      ImportAfter(Now(), c);
      if !Bundle.ValidDomain(domain) || Listing(rows, domain) != [] || aliased { return; }
      var seed := [Seed(domain, description)];
      UpsertBatch(domain, seed);
      ghost var start := rows;
      var batch: seq<Entry> := [];
      var k := 0;
      ghost var flushed := 0;
      PutAllNone(start, domain);
      while k < |lines|
        invariant 0 <= flushed <= k <= |lines| && k <= GoodLines(lines)
        invariant flushed == k - k % Bundle.BATCH
        invariant batch == Entries(lines, k)[flushed..]
        invariant engines == old(engines)
        invariant rows == PutAll(start, domain, Entries(lines, flushed))
      {
        PutAllAppend(old(rows), domain, seed, Entries(lines, flushed));
        match lines[k]
        case Bad =>
          assert Written(c) == Entries(lines, flushed);
          DeleteRows(domain, true, "");
          return;
        case Breaks =>
          assert Written(c) == Entries(lines, flushed);
          return;
        case Good(e) =>
          assert GoodLines(lines) > k;
          batch := batch + [e];
          k := k + 1;
          assert batch == Entries(lines, k)[flushed..];
          if |batch| >= Bundle.BATCH {
            Flush(start, lines, domain, batch, flushed, k);
            batch := [];
            flushed := k;
          }
      }
      Flush(start, lines, domain, batch, flushed, k);
      PutAllAppend(old(rows), domain, seed, Entries(lines, k));
      assert Written(c) == Entries(lines, k);
      if !fails {
        engines := engines - {domain};
      }
    }

    method Flush(
      ghost start: seq<Row>, ghost lines: seq<Line>, domain: string, batch: seq<Entry>, ghost flushed: nat,
      ghost k: nat)
      requires flushed <= k <= GoodLines(lines) && batch == Entries(lines, k)[flushed..]
      requires rows == PutAll(start, domain, Entries(lines, flushed))
      modifies this`rows
      ensures rows == PutAll(start, domain, Entries(lines, k))
    {
      PutAllAppend(start, domain, Entries(lines, flushed), batch);
      assert Entries(lines, flushed) + batch == Entries(lines, k);
      UpsertBatch(domain, batch);
    }
  }

  lemma PutAllNone(rows: seq<Row>, d: string)
    ensures PutAll(rows, d, []) == rows
  {
  }
}
