/** The TF-IDF index of `context-engine/retriever.py`, over the reals. */
module Retriever {
  import opened Options

  type Vec = seq<real>
  type Weights = map<string, real>

  datatype Document = Document(id: string, content: string)

  /** What the index is given: the tokenizer, the logarithm, the square root and the embedder, which
      takes a list of texts; `embedOne` is what it makes of each of them. */
  datatype Tools = Tools(tokenize: string -> seq<string>, log: real -> real, sqrt: real -> real,
                         embed: seq<string> -> seq<Vec>, embedOne: string -> Vec)

  predicate EmbedsEach(tools: Tools, texts: seq<string>) {
    var rows := tools.embed(texts);
    |rows| == |texts| && forall i :: 0 <= i < |texts| ==> rows[i] == tools.embedOne(texts[i])
  }

  ghost predicate Lawful(tools: Tools) {
    && (forall x: real :: x >= 1.0 ==> tools.log(x) >= 0.0)
    && (forall x: real :: x >= 0.0 ==> tools.sqrt(x) >= 0.0 && tools.sqrt(x) * tools.sqrt(x) == x)
    && (forall texts: seq<string> :: EmbedsEach(tools, texts))
  }

  function Tokens(tools: Tools, text: string): set<string> {
    set t | t in tools.tokenize(text)
  }

  function Contents(docs: seq<Document>): seq<string> {
    seq(|docs|, i requires 0 <= i < |docs| => docs[i].content)
  }

  // ---------- The index ----------

  /** How many documents contain the token. */
  function DocsWith(tools: Tools, docs: seq<Document>, t: string): nat {
    if docs == [] then 0
    else DocsWith(tools, docs[..|docs| - 1], t) + if t in Tokens(tools, docs[|docs| - 1].content) then 1 else 0
  }

  function DocFreq(freq: map<string, nat>, t: string): nat {
    if t in freq then freq[t] else 0
  }

  /** Row `i` of the table is the embedding of document `i`. */
  predicate RowsMatch(tools: Tools, rows: seq<Vec>, docs: seq<Document>) {
    |rows| == |docs| && forall i :: 0 <= i < |docs| ==> rows[i] == tools.embedOne(docs[i].content)
  }

  class Index {
    const tools: Tools
    const hybrid: bool
    var documents: seq<Document>
    var docFreq: map<string, nat>
    var nDocs: nat
    var docEmbeddings: Option<seq<Vec>>

    /** The counters agree with the documents, and a cached embedding table has one row per document, in order. */
    ghost predicate Valid()
      reads this
    {
      && nDocs == |documents|
      && (forall t :: DocFreq(docFreq, t) == DocsWith(tools, documents, t))
      && (docEmbeddings.Some? ==> hybrid && RowsMatch(tools, docEmbeddings.value, documents))
    }

    constructor (tools: Tools, hybrid: bool)
      ensures this.tools == tools && this.hybrid == hybrid && documents == [] && Valid()
    {
      this.tools, this.hybrid := tools, hybrid;
      documents, docFreq, nDocs, docEmbeddings := [], map[], 0, None;
    }

    /** `add_document`. */
    method AddDocument(doc: Document)
      requires Lawful(tools) && Valid()
      modifies this
      ensures Valid() && documents == old(documents) + [doc]
      ensures forall t ::
        DocFreq(docFreq, t) == DocFreq(old(docFreq), t) + if t in Tokens(tools, doc.content) then 1 else 0
      ensures docEmbeddings == if old(docEmbeddings).None? then None
                               else Some(old(docEmbeddings).value + [tools.embedOne(doc.content)])
    {
      documents := documents + [doc];
      nDocs := nDocs + 1;
      var todo := Tokens(tools, doc.content);
      ghost var all := todo;
      while todo != {}
        modifies this`docFreq
        invariant todo <= all
        invariant forall t :: DocFreq(docFreq, t) == DocFreq(old(docFreq), t) + if t in all - todo then 1 else 0
        decreases todo
      {
        var t :| t in todo;
        docFreq := docFreq[t := DocFreq(docFreq, t) + 1];
        todo := todo - {t};
      }
      assert documents[..|documents| - 1] == old(documents) && documents[|documents| - 1] == doc;
      forall t ensures DocFreq(docFreq, t) == DocsWith(tools, documents, t) {
        assert DocFreq(old(docFreq), t) == DocsWith(tools, old(documents), t);
        assert DocsWith(tools, documents, t) == DocsWith(tools, old(documents), t) + if t in all then 1 else 0;
      }
      if docEmbeddings.Some? {
        ComputeDocEmbeddings();
        assert docEmbeddings.value == old(docEmbeddings).value + [tools.embedOne(doc.content)];
      }
    }

    method ComputeDocEmbeddings()
      requires Lawful(tools) && hybrid
      modifies this`docEmbeddings
      ensures docEmbeddings.Some? && RowsMatch(tools, docEmbeddings.value, documents)
    {
      assert EmbedsEach(tools, Contents(documents));
      docEmbeddings := Some(tools.embed(Contents(documents)));
    }

    /** The lazy step at the start of a hybrid query. */
    method EnsureEmbeddings()
      requires Lawful(tools) && Valid() && hybrid
      modifies this`docEmbeddings
      ensures Valid() && docEmbeddings.Some? && RowsMatch(tools, docEmbeddings.value, documents)
      ensures old(docEmbeddings).Some? ==> docEmbeddings == old(docEmbeddings)
    {
      if docEmbeddings.None? {
        ComputeDocEmbeddings();
      }
    }

    /** `_idf`, from the counters. */
    function Idf(t: string): (r: real)
      requires Valid()
      reads this
      ensures r == IdfOf(tools, documents, t)
    {
      tools.log((1.0 + nDocs as real) / (1.0 + DocFreq(docFreq, t) as real)) + 1.0
    }

    function Weigh(tokens: seq<string>): (v: Weights)
      requires Valid()
      reads this
      ensures v == Vector(tools, documents, tokens)
    {
      map t | t in tokens :: Weight(tokens, t, Idf(t))
    }

    /** `_tfidf_retrieve` before sorting: the documents with a positive score. */
    method TfidfRetrieve(query: string) returns (hits: seq<Document>)
      requires Valid()
      ensures hits == TfidfHits(tools, documents, query)
    {
      hide Weight;
      hide IdfOf;
      hide Cosine;
      hits := [];
      var queryTokens := tools.tokenize(query);
      if queryTokens == [] { return; }
      var queryVec := Weigh(queryTokens);
      var i := 0;
      while i < |documents|
        invariant 0 <= i <= |documents|
        invariant hits == Select(documents[..i], Matching(tools, documents, query))
      {
        assert documents[..i + 1][..i] == documents[..i];
        var docVec := Weigh(tools.tokenize(documents[i].content));
        var score := CosineSim(tools, queryVec, docVec);
        if score > 0.0 {
          hits := hits + [documents[i]];
        }
        i := i + 1;
      }
      assert documents[..i] == documents;
    }

    /** `_keyword_retrieve` before sorting: the documents that share a token with the query. */
    method KeywordRetrieve(query: string) returns (hits: seq<Document>)
      ensures hits == KeywordHits(tools, documents, query)
    {
      hits := [];
      if Tokens(tools, query) == {} { return; }
      var i := 0;
      while i < |documents|
        invariant 0 <= i <= |documents|
        invariant hits == Select(documents[..i], d => SharesToken(tools, query, d))
      {
        assert documents[..i + 1][..i] == documents[..i];
        if Tokens(tools, query) * Tokens(tools, documents[i].content) != {} {
          hits := hits + [documents[i]];
        }
        i := i + 1;
      }
      assert documents[..i] == documents;
    }
  }

  predicate SharesToken(tools: Tools, query: string, d: Document) {
    Tokens(tools, query) * Tokens(tools, d.content) != {}
  }

  function Select(docs: seq<Document>, p: Document -> bool): seq<Document> {
    if docs == [] then []
    else Select(docs[..|docs| - 1], p) + if p(docs[|docs| - 1]) then [docs[|docs| - 1]] else []
  }

  lemma {:induction false} DocsWithBound(tools: Tools, docs: seq<Document>, t: string)
    ensures DocsWith(tools, docs, t) <= |docs|
    decreases |docs|
  {
    if docs != [] {
      DocsWithBound(tools, docs[..|docs| - 1], t);
    }
  }

  /** The weight of a token: never below one. */
  function IdfOf(tools: Tools, docs: seq<Document>, t: string): real {
    tools.log((1.0 + |docs| as real) / (1.0 + DocsWith(tools, docs, t) as real)) + 1.0
  }

  lemma IdfAtLeastOne(tools: Tools, docs: seq<Document>, t: string)
    requires Lawful(tools)
    ensures IdfOf(tools, docs, t) >= 1.0
  {
    DocsWithBound(tools, docs, t);
    var n, df := 1.0 + |docs| as real, 1.0 + DocsWith(tools, docs, t) as real;
    assert n >= df > 0.0;
    QuotientAtLeastOne(n, df);
  }

  lemma QuotientAtLeastOne(n: real, d: real)
    requires n >= d > 0.0
    ensures n / d >= 1.0
  {
    var q := n / d;
    assert q * d == n;
    if q < 1.0 {
      BelowOne(q, d);
    }
  }

  lemma BelowOne(q: real, d: real)
    requires q < 1.0 && d > 0.0
    ensures q * d < d
  {
  }

  // ---------- Sparse vectors ----------

  function At(v: Weights, t: string): real {
    if t in v then v[t] else 0.0
  }

  function Times(x: real, y: real): real {
    x * y
  }

  /** Sum of the products of the two vectors over `keys`. */
  ghost function Dot(u: Weights, v: Weights, keys: set<string>): real {
    if keys == {} then 0.0
    else
      var t :| t in keys;
      Times(At(u, t), At(v, t)) + Dot(u, v, keys - {t})
  }

  lemma {:induction false} DotWithout(u: Weights, v: Weights, keys: set<string>, t: string)
    requires t in keys
    ensures Dot(u, v, keys) == Times(At(u, t), At(v, t)) + Dot(u, v, keys - {t})
    decreases keys
  {
    hide Times;
    var s :| s in keys && Dot(u, v, keys) == Times(At(u, s), At(v, s)) + Dot(u, v, keys - {s});
    if s != t {
      DotWithout(u, v, keys - {s}, t);
      DotWithout(u, v, keys - {t}, s);
      assert keys - {s} - {t} == keys - {t} - {s};
    }
  }

  /** Keys where a factor is zero do not count. */
  lemma {:induction false} DotOver(u: Weights, v: Weights, keys: set<string>, more: set<string>)
    requires keys <= more && forall t :: t in more - keys ==> Times(At(u, t), At(v, t)) == 0.0
    ensures Dot(u, v, more) == Dot(u, v, keys)
    decreases more
  {
    if more - keys != {} {
      var t :| t in more - keys;
      DotWithout(u, v, more, t);
      DotOver(u, v, keys, more - {t});
    } else {
      forall t | t in more ensures t in keys {
        assert t !in more - keys;
      }
      assert more == keys;
    }
  }

  ghost predicate NonNegative(v: Weights) {
    forall t :: t in v ==> v[t] >= 0.0
  }

  ghost predicate Positive(v: Weights) {
    forall t :: t in v ==> v[t] > 0.0
  }

  lemma {:induction false} DotSign(u: Weights, v: Weights, keys: set<string>)
    requires NonNegative(u) && NonNegative(v)
    ensures Dot(u, v, keys) >= 0.0
    ensures (exists t :: t in keys && At(u, t) > 0.0 && At(v, t) > 0.0) ==> Dot(u, v, keys) > 0.0
    decreases keys
  {
    if keys != {} {
      var s :| s in keys;
      if t :| t in keys && At(u, t) > 0.0 && At(v, t) > 0.0 {
        DotWithout(u, v, keys, t);
        DotSign(u, v, keys - {t});
        ProductSign(At(u, t), At(v, t));
      } else {
        DotWithout(u, v, keys, s);
        DotSign(u, v, keys - {s});
        ProductSign(At(u, s), At(v, s));
      }
    }
  }

  lemma ProductSign(x: real, y: real)
    requires x >= 0.0 && y >= 0.0
    ensures x * y >= 0.0
    ensures x > 0.0 && y > 0.0 ==> x * y > 0.0
  {
  }

  lemma SquareGrows(p: real, q: real)
    requires 0.0 <= p < q
    ensures p * p < q * q
  {
    ProductSign(q - p, q + p);
    assert q * q - p * p == (q - p) * (q + p);
  }

  lemma SquareOrder(p: real, q: real)
    requires p >= 0.0 && p * p >= q * q
    ensures p >= q
  {
    if p < q {
      SquareGrows(p, q);
    }
  }

  /** One step of the Cauchy-Schwarz induction. */
  lemma SchwarzStep(d: real, a: real, b: real, x: real, y: real)
    requires a >= 0.0 && b >= 0.0 && d * d <= a * b
    ensures (d + x * y) * (d + x * y) <= (a + x * x) * (b + y * y)
  {
    var p, q := a * (y * y) + b * (x * x), 2.0 * d * (x * y);
    Squares(x);
    Squares(y);
    ProductSign(a, y * y);
    ProductSign(b, x * x);
    assert p * p >= q * q by { CrossTerms(d, a, b, x, y); }
    SquareOrder(p, q);
    assert (d + x * y) * (d + x * y) == d * d + q + (x * y) * (x * y);
    assert (a + x * x) * (b + y * y) == a * b + p + (x * x) * (y * y);
    assert (x * y) * (x * y) == (x * x) * (y * y);
  }

  lemma Squares(x: real)
    ensures x * x >= 0.0
  {
  }

  lemma CrossTerms(d: real, a: real, b: real, x: real, y: real)
    requires a >= 0.0 && b >= 0.0 && d * d <= a * b
    ensures
      var p, q := a * (y * y) + b * (x * x), 2.0 * d * (x * y);
      p * p >= q * q
  {
    var m, n := a * (y * y), b * (x * x);
    var w := (x * y) * (x * y);
    Squares(m - n);
    Squares(x * y);
    assert (m + n) * (m + n) == (m - n) * (m - n) + 4.0 * (m * n);
    assert m * n == a * b * w by { Regroup(a, b, x, y); }
    ProductSign(a * b - d * d, w);
    assert (a * b - d * d) * w == a * b * w - d * d * w;
    var q := 2.0 * d * (x * y);
    assert q * q == 4.0 * (d * d * w) by { SquareOfProduct(d, x * y); }
  }

  lemma Regroup(a: real, b: real, x: real, y: real)
    ensures a * (y * y) * (b * (x * x)) == a * b * ((x * y) * (x * y))
  {
    assert (y * y) * (x * x) == (x * y) * (x * y);
    assert a * (y * y) * (b * (x * x)) == a * b * ((y * y) * (x * x));
  }

  lemma SquareOfProduct(d: real, z: real)
    ensures 2.0 * d * z * (2.0 * d * z) == 4.0 * (d * d * (z * z))
  {
    assert 2.0 * d * z == 2.0 * (d * z);
    assert (d * z) * (d * z) == d * d * (z * z);
  }

  ghost predicate Schwarz(d: real, a: real, b: real) {
    a >= 0.0 && b >= 0.0 && d * d <= a * b
  }

  lemma SchwarzSums(d: real, a: real, b: real, x: real, y: real)
    requires Schwarz(d, a, b)
    ensures Schwarz(Times(x, y) + d, Times(x, x) + a, Times(y, y) + b)
  {
    Squares(x);
    Squares(y);
    SchwarzStep(d, a, b, x, y);
    assert x * y + d == d + x * y && x * x + a == a + x * x && y * y + b == b + y * y;
  }

  lemma SchwarzZero()
    ensures Schwarz(0.0, 0.0, 0.0)
  {
  }

  lemma {:induction false} CauchySchwarz(u: Weights, v: Weights, keys: set<string>)
    ensures Schwarz(Dot(u, v, keys), Dot(u, u, keys), Dot(v, v, keys))
    decreases keys
  {
    hide Schwarz;
    hide Times;
    if keys == {} {
      SchwarzZero();
    } else {
      var t :| t in keys;
      var rest := keys - {t};
      CauchySchwarz(u, v, rest);
      var x, y := At(u, t), At(v, t);
      SchwarzSums(Dot(u, v, rest), Dot(u, u, rest), Dot(v, v, rest), x, y);
      DotWithout(u, v, keys, t);
      DotWithout(u, u, keys, t);
      DotWithout(v, v, keys, t);
    }
  }

  ghost function Norm(tools: Tools, v: Weights): real {
    tools.sqrt(Dot(v, v, v.Keys))
  }

  /** `_cosine_sim`. */
  ghost function Cosine(tools: Tools, u: Weights, v: Weights): real {
    Ratio(Dot(u, v, u.Keys), Norm(tools, u), Norm(tools, v))
  }

  function Ratio(d: real, nu: real, nv: real): real {
    if nu == 0.0 || nv == 0.0 then 0.0
    else
      NonZeroProduct(nu, nv);
      Quotient(d, Times(nu, nv))
  }

  function Quotient(x: real, y: real): real
    requires y != 0.0
  {
    x / y
  }

  /** The sums of `_cosine_sim`, taken in whatever order the keys come. */
  method SumProducts(u: Weights, v: Weights) returns (sum: real)
    ensures sum == Dot(u, v, u.Keys)
  {
    sum := 0.0;
    var todo := u.Keys;
    while todo != {}
      invariant todo <= u.Keys
      invariant sum + Dot(u, v, todo) == Dot(u, v, u.Keys)
      decreases todo
    {
      var t :| t in todo;
      DotWithout(u, v, todo, t);
      sum := sum + Times(At(u, t), At(v, t));
      todo := todo - {t};
    }
  }

  method CosineSim(tools: Tools, u: Weights, v: Weights) returns (r: real)
    ensures r == Cosine(tools, u, v)
  {
    hide Dot, Times, Quotient;
    var dot := SumProducts(u, v);
    var squaresU := SumProducts(u, u);
    var squaresV := SumProducts(v, v);
    var normU, normV := tools.sqrt(squaresU), tools.sqrt(squaresV);
    if normU == 0.0 || normV == 0.0 { return 0.0; }
    NonZeroProduct(normU, normV);
    return Quotient(dot, Times(normU, normV));
  }

  lemma NonZeroProduct(x: real, y: real)
    requires x != 0.0 && y != 0.0
    ensures Times(x, y) != 0.0
  {
  }

  lemma DotBelowNorms(d: real, a: real, b: real, nu: real, nv: real)
    requires Schwarz(d, a, b) && nu >= 0.0 && nv >= 0.0 && nu * nu == a && nv * nv == b
    ensures d <= nu * nv
  {
    ProductSign(nu, nv);
    assert (nu * nv) * (nu * nv) == (nu * nu) * (nv * nv);
    if d >= 0.0 {
      SquareOrder(nu * nv, d);
    }
  }

  /** Over the keys of the first vector the three sums are the ones `_cosine_sim` takes. */
  lemma CosineSums(u: Weights, v: Weights)
    ensures Schwarz(Dot(u, v, u.Keys), Dot(u, u, u.Keys), Dot(v, v, v.Keys))
  {
    var all := u.Keys + v.Keys;
    DotOver(u, v, u.Keys, all);
    DotOver(u, u, u.Keys, all);
    DotOver(v, v, v.Keys, all);
    CauchySchwarz(u, v, all);
  }

  lemma CosineBounds(tools: Tools, u: Weights, v: Weights)
    requires Lawful(tools) && Positive(u) && Positive(v)
    ensures 0.0 <= Cosine(tools, u, v) <= 1.0
    ensures Cosine(tools, u, v) > 0.0 <==> u.Keys * v.Keys != {}
  {
    hide Schwarz, Dot, Ratio;
    var d, nu, nv := Dot(u, v, u.Keys), Norm(tools, u), Norm(tools, v);
    if u.Keys * v.Keys == {} {
      NoCommonKey(u, v);
      RatioOfZero(nu, nv);
    } else {
      var t :| t in u.Keys * v.Keys;
      CosineSums(u, v);
      NormPositive(tools, u);
      NormPositive(tools, v);
      assert At(u, t) > 0.0 && At(v, t) > 0.0;
      DotSign(u, v, u.Keys);
      assert d > 0.0 by { assert t in u.Keys; }
      assert nu > 0.0 && nv > 0.0;
      NormSquared(tools, u);
      NormSquared(tools, v);
      DotBelowNorms(d, Dot(u, u, u.Keys), Dot(v, v, v.Keys), nu, nv);
      RatioBounds(d, nu, nv);
    }
  }

  lemma NoCommonKey(u: Weights, v: Weights)
    requires u.Keys * v.Keys == {}
    ensures Dot(u, v, u.Keys) == 0.0
  {
    forall t | t in u.Keys ensures Times(At(u, t), At(v, t)) == 0.0 {
      assert t !in u.Keys * v.Keys;
    }
    DotOver(u, v, {}, u.Keys);
  }

  lemma NormSquared(tools: Tools, v: Weights)
    requires Lawful(tools)
    ensures Norm(tools, v) * Norm(tools, v) == Dot(v, v, v.Keys)
  {
    CauchySchwarz(v, v, v.Keys);
  }

  lemma RatioOfZero(nu: real, nv: real)
    ensures Ratio(0.0, nu, nv) == 0.0
  {
    if nu != 0.0 && nv != 0.0 {
      NonZeroProduct(nu, nv);
      ZeroOver(Times(nu, nv));
    }
  }

  lemma ZeroOver(x: real)
    ensures x != 0.0 ==> 0.0 / x == 0.0
  {
  }

  lemma RatioBounds(d: real, nu: real, nv: real)
    requires 0.0 < d <= nu * nv && nu > 0.0 && nv > 0.0
    ensures 0.0 < Ratio(d, nu, nv) <= 1.0
  {
    QuotientBounds(d, nu * nv);
  }

  lemma QuotientBounds(d: real, n: real)
    requires 0.0 < d <= n
    ensures 0.0 < d / n <= 1.0
  {
    assert d / n * n == d;
  }

  lemma NormPositive(tools: Tools, v: Weights)
    requires Lawful(tools) && Positive(v)
    ensures Norm(tools, v) >= 0.0 && (v.Keys != {} ==> Norm(tools, v) > 0.0)
  {
    DotSign(v, v, v.Keys);
    if v.Keys != {} {
      var t :| t in v.Keys;
      assert At(v, t) > 0.0;
    }
  }

  // ---------- Scores ----------

  function Count(tokens: seq<string>, t: string): nat {
    multiset(tokens)[t]
  }

  /** Term frequency times inverse document frequency. */
  function Weight(tokens: seq<string>, t: string, idf: real): real
    requires t in tokens
  {
    Count(tokens, t) as real / |tokens| as real * idf
  }

  /** The TF-IDF vector of `tokens`. */
  function Vector(tools: Tools, docs: seq<Document>, tokens: seq<string>): Weights {
    map t | t in tokens :: Weight(tokens, t, IdfOf(tools, docs, t))
  }

  lemma VectorPositive(tools: Tools, docs: seq<Document>, tokens: seq<string>)
    requires Lawful(tools)
    ensures Positive(Vector(tools, docs, tokens))
  {
    var v := Vector(tools, docs, tokens);
    forall t | t in v ensures v[t] > 0.0 {
      assert t in multiset(tokens);
      IdfAtLeastOne(tools, docs, t);
      QuotientPositive(Count(tokens, t) as real, |tokens| as real);
      ProductSign(Count(tokens, t) as real / |tokens| as real, IdfOf(tools, docs, t));
    }
  }

  lemma QuotientPositive(x: real, y: real)
    requires x > 0.0 && y > 0.0
    ensures x / y > 0.0
  {
  }

  /** The TF-IDF score of a document against a query, in an index of `docs`. */
  ghost function Score(tools: Tools, docs: seq<Document>, query: string, d: Document): real {
    Cosine(tools, Vector(tools, docs, tools.tokenize(query)), Vector(tools, docs, tools.tokenize(d.content)))
  }

  /** MAIN: every TF-IDF score lies between zero and one, and it is positive if and only if query and
      document share a token. */
  lemma ScoreBounds(tools: Tools, docs: seq<Document>, query: string, d: Document)
    requires Lawful(tools)
    ensures 0.0 <= Score(tools, docs, query, d) <= 1.0
    ensures Score(tools, docs, query, d) > 0.0 <==> SharesToken(tools, query, d)
  {
    var q, v := Vector(tools, docs, tools.tokenize(query)), Vector(tools, docs, tools.tokenize(d.content));
    VectorPositive(tools, docs, tools.tokenize(query));
    VectorPositive(tools, docs, tools.tokenize(d.content));
    CosineBounds(tools, q, v);
    assert q.Keys == Tokens(tools, query) && v.Keys == Tokens(tools, d.content);
  }

  /** The documents a TF-IDF query returns when nothing is cut off, in index order. */
  ghost function TfidfHits(tools: Tools, docs: seq<Document>, query: string): seq<Document> {
    if tools.tokenize(query) == [] then [] else Select(docs, Matching(tools, docs, query))
  }

  ghost function Matching(tools: Tools, docs: seq<Document>, query: string): Document -> bool {
    d => Score(tools, docs, query, d) > 0.0
  }

  function KeywordHits(tools: Tools, docs: seq<Document>, query: string): seq<Document> {
    if Tokens(tools, query) == {} then [] else Select(docs, d => SharesToken(tools, query, d))
  }

  lemma {:induction false} SelectAgree(docs: seq<Document>, p: Document -> bool, q: Document -> bool)
    requires forall d :: p(d) <==> q(d)
    ensures Select(docs, p) == Select(docs, q)
    decreases |docs|
  {
    if docs != [] {
      SelectAgree(docs[..|docs| - 1], p, q);
    }
  }

  /** MAIN: with room for every document, the keyword mode and the TF-IDF mode return the same
      documents for every query and every index. */
  lemma ModesAgree(tools: Tools, docs: seq<Document>, query: string)
    requires Lawful(tools)
    ensures TfidfHits(tools, docs, query) == KeywordHits(tools, docs, query)
  {
    forall d: Document ensures (Score(tools, docs, query, d) > 0.0) <==> SharesToken(tools, query, d) {
      ScoreBounds(tools, docs, query, d);
    }
    assert tools.tokenize(query) == [] <==> Tokens(tools, query) == {} by {
      if tools.tokenize(query) != [] {
        assert tools.tokenize(query)[0] in Tokens(tools, query);
      }
    }
    SelectAgree(docs, Matching(tools, docs, query), d => SharesToken(tools, query, d));
  }
}
