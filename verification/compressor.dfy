/** Fitting retrieved text into a token budget: `compressor.py` and `ContextEngine.build`. */
module Compressor {
  import opened Text

  datatype Strategy = Truncate | Sentence | Extractive

  /** The sentence splitter and the query-overlap score of a sentence. */
  datatype Tools = Tools(split: string -> seq<string>, score: (string, string) -> real)

  /** The splitter strips its sentences and drops empty ones. */
  ghost predicate Lawful(tools: Tools) {
    forall text, i :: 0 <= i < |tools.split(text)| ==>
      tools.split(text)[i] != "" && Trimmed(PySpace, tools.split(text)[i])
  }

  function EstimateTokens(text: string): nat {
    |text| / 4
  }

  function Filter(chunks: seq<string>, minChunk: nat): seq<string> {
    if chunks == [] then []
    else (if chunks[0] != "" && |chunks[0]| >= minChunk then [chunks[0]] else []) + Filter(chunks[1..], minChunk)
  }

  function Sentences(tools: Tools, chunks: seq<string>): seq<string> {
    if chunks == [] then [] else tools.split(chunks[0]) + Sentences(tools, chunks[1..])
  }

  ghost predicate AllTrimmed(sents: seq<string>) {
    forall i :: 0 <= i < |sents| ==> sents[i] != "" && Trimmed(PySpace, sents[i])
  }

  lemma {:induction false} SentencesTrimmed(tools: Tools, chunks: seq<string>)
    requires Lawful(tools)
    ensures AllTrimmed(Sentences(tools, chunks))
  {
    if chunks != [] {
      SentencesTrimmed(tools, chunks[1..]);
    }
  }

  function Head(s: string, n: nat): string {
    if |s| <= n then s else s[..n]
  }

  // ---------- Joining ----------

  function TotalLength(parts: seq<string>): nat {
    if parts == [] then 0 else |parts[0]| + TotalLength(parts[1..])
  }

  lemma {:induction false} JoinLength(sep: string, parts: seq<string>)
    ensures |Join(sep, parts)| == TotalLength(parts) + if parts == [] then 0 else |sep| * (|parts| - 1)
  {
    if |parts| > 1 {
      JoinLength(sep, parts[1..]);
      assert |sep| * (|parts| - 1) == |sep| + |sep| * (|parts| - 2);
    } else if |parts| == 1 {
      assert TotalLength(parts) == |parts[0]| + TotalLength(parts[1..]);
    }
  }

  lemma {:induction false} JoinTrimmed(sep: string, parts: seq<string>)
    requires AllTrimmed(parts)
    ensures Trimmed(PySpace, Join(sep, parts))
    ensures parts != [] ==>
        Join(sep, parts) != ""
          && Join(sep, parts)[|Join(sep, parts)| - 1] == parts[|parts| - 1][|parts[|parts| - 1]| - 1]
  {
    if |parts| > 1 {
      JoinTrimmed(sep, parts[1..]);
      assert Join(sep, parts)[0] == parts[0][0];
    }
  }

  lemma TrimNothing(s: string)
    requires Trimmed(PySpace, s)
    ensures Trim(PySpace, s) == s
  {
  }

  lemma {:induction false} TotalLengthSnoc(parts: seq<string>, p: string)
    ensures TotalLength(parts + [p]) == TotalLength(parts) + |p|
  {
    if parts == [] {
      assert (parts + [p])[1..] == [];
    } else {
      assert (parts + [p])[1..] == parts[1..] + [p];
      TotalLengthSnoc(parts[1..], p);
    }
  }

  // ---------- Ranking ----------

  predicate InRange(ranked: seq<nat>, n: nat) {
    forall a :: 0 <= a < |ranked| ==> ranked[a] < n
  }

  /** Put position `i` behind every position that scores at least as much. */
  function InsertRanked(ranked: seq<nat>, scores: seq<real>, i: nat): seq<nat>
    requires i < |scores| && InRange(ranked, |scores|)
  {
    if ranked == [] || scores[ranked[0]] < scores[i] then [i] + ranked
    else [ranked[0]] + InsertRanked(ranked[1..], scores, i)
  }

  lemma {:induction false} InsertRankedMembers(ranked: seq<nat>, scores: seq<real>, i: nat, n: nat)
    requires i < n <= |scores| && InRange(ranked, |scores|)
    ensures multiset(InsertRanked(ranked, scores, i)) == multiset(ranked) + multiset{i}
    ensures InRange(ranked, n) ==> InRange(InsertRanked(ranked, scores, i), n)
  {
    if ranked != [] {
      assert ranked == [ranked[0]] + ranked[1..];
      if scores[ranked[0]] >= scores[i] {
        InsertRankedMembers(ranked[1..], scores, i, n);
      }
    }
  }

  /** `sorted(..., reverse=True)` on the scores: descending, and stable. */
  function Rank(scores: seq<real>, n: nat): (ranked: seq<nat>)
    requires n <= |scores|
    ensures InRange(ranked, n)
  {
    if n == 0 then []
    else
      var before := Rank(scores, n - 1);
      InsertRankedMembers(before, scores, n - 1, n);
      InsertRanked(before, scores, n - 1)
  }

  /** Position `p` goes before position `q`. */
  predicate Before(scores: seq<real>, p: nat, q: nat)
    requires p < |scores| && q < |scores|
  {
    scores[p] > scores[q] || (scores[p] == scores[q] && p < q)
  }

  ghost predicate Ordered(ranked: seq<nat>, scores: seq<real>) {
    && InRange(ranked, |scores|)
    && forall a, b :: 0 <= a < b < |ranked| ==> Before(scores, ranked[a], ranked[b])
  }

  lemma {:induction false} InsertRankedOrdered(ranked: seq<nat>, scores: seq<real>, i: nat)
    requires i < |scores| && Ordered(ranked, scores) && InRange(ranked, i)
    ensures Ordered(InsertRanked(ranked, scores, i), scores)
    ensures forall p: nat ::
      p < |scores| && Before(scores, p, i) && (forall a :: 0 <= a < |ranked| ==> Before(scores, p, ranked[a])) ==>
        forall b :: 0 <= b < |InsertRanked(ranked, scores, i)| ==>
          InsertRanked(ranked, scores, i)[b] < |scores| && Before(scores, p, InsertRanked(ranked, scores, i)[b])
  {
    InsertRankedMembers(ranked, scores, i, |scores|);
    if ranked != [] && scores[ranked[0]] >= scores[i] {
      InsertRankedOrdered(ranked[1..], scores, i);
      assert Before(scores, ranked[0], i);
      assert forall a :: 0 <= a < |ranked[1..]| ==> ranked[1..][a] == ranked[a + 1];
    }
  }

  /** The ranking is by descending score, earlier sentences first among equals. */
  lemma {:induction false} RankOrdered(scores: seq<real>, n: nat)
    requires n <= |scores|
    ensures Ordered(Rank(scores, n), scores)
  {
    if n > 0 {
      RankOrdered(scores, n - 1);
      InsertRankedOrdered(Rank(scores, n - 1), scores, n - 1);
    }
  }

  /** The positions `0` to `n - 1` in order. */
  function Positions(n: nat): seq<nat> {
    if n == 0 then [] else Positions(n - 1) + [n - 1]
  }

  /** Every sentence is ranked once. */
  lemma {:induction false} RankIsPermutation(scores: seq<real>, n: nat)
    requires n <= |scores|
    ensures multiset(Rank(scores, n)) == multiset(Positions(n))
  {
    hide InsertRanked;
    if n > 0 {
      var last: nat := n - 1;
      RankIsPermutation(scores, last);
      InsertRankedMembers(Rank(scores, last), scores, last, n);
      assert Rank(scores, n) == InsertRanked(Rank(scores, last), scores, last);
      assert Positions(n) == Positions(last) + [last];
      hide Rank, Positions;
    }
  }

  // ---------- Greedy selection ----------

  const SEPARATOR := "  "
  const MARGIN := 10

  datatype Selection = Selection(chosen: set<nat>, budget: nat)

  function Cost(sents: seq<string>, chosen: set<nat>, p: nat): nat
    requires p < |sents|
  {
    |sents[p]| + if chosen == {} then 0 else |SEPARATOR|
  }

  function Pick(sents: seq<string>, s: Selection, p: nat): Selection
    requires p < |sents|
  {
    if Cost(sents, s.chosen, p) <= s.budget then Selection(s.chosen + {p}, s.budget - Cost(sents, s.chosen, p)) else s
  }

  /** The selection loop over the ranking; it stops early once the budget is nearly used up. */
  function Greedy(sents: seq<string>, ranked: seq<nat>, s: Selection): Selection
    requires InRange(ranked, |sents|)
    decreases |ranked|
  {
    if ranked == [] then s
    else
      var next := Pick(sents, s, ranked[0]);
      if next.budget <= MARGIN then next else Greedy(sents, ranked[1..], next)
  }

  /** The chosen sentences among the first `n`, in document order. */
  function InOrder(sents: seq<string>, chosen: set<nat>, n: nat): seq<string>
    requires n <= |sents|
  {
    if n == 0 then [] else InOrder(sents, chosen, n - 1) + if n - 1 in chosen then [sents[n - 1]] else []
  }

  lemma {:induction false} InOrderAdds(sents: seq<string>, chosen: set<nat>, p: nat, n: nat)
    requires n <= |sents| && p < |sents| && p !in chosen
    ensures TotalLength(InOrder(sents, chosen + {p}, n)) == TotalLength(InOrder(sents, chosen, n))
        + if p < n then |sents[p]| else 0
    ensures |InOrder(sents, chosen + {p}, n)| == |InOrder(sents, chosen, n)| + if p < n then 1 else 0
    decreases n
  {
    if n > 0 {
      InOrderAdds(sents, chosen, p, n - 1);
      var before, after := InOrder(sents, chosen, n - 1), InOrder(sents, chosen + {p}, n - 1);
      TotalLengthSnoc(before, sents[n - 1]);
      TotalLengthSnoc(after, sents[n - 1]);
      assert before + [] == before && after + [] == after;
    }
  }

  lemma {:induction false} InOrderNone(sents: seq<string>, n: nat)
    requires n <= |sents|
    ensures InOrder(sents, {}, n) == []
  {
    if n > 0 {
      InOrderNone(sents, n - 1);
    }
  }

  lemma {:induction false} InOrderMembers(sents: seq<string>, chosen: set<nat>, n: nat)
    requires n <= |sents|
    ensures forall i :: 0 <= i < n && i in chosen ==> sents[i] in InOrder(sents, chosen, n)
    ensures |InOrder(sents, chosen, n)| == 0 <==> forall i :: 0 <= i < n ==> i !in chosen
  {
    if n > 0 {
      InOrderMembers(sents, chosen, n - 1);
    }
  }

  /** What the chosen sentences take up, with separators between them. */
  function Taken(sents: seq<string>, chosen: set<nat>): int
  {
    TotalLength(InOrder(sents, chosen, |sents|))
      + if chosen == {} then 0 else |SEPARATOR| * (|InOrder(sents, chosen, |sents|)| - 1)
  }

  ghost predicate Balanced(sents: seq<string>, s: Selection, limit: nat) {
    && (forall p :: p in s.chosen ==> p < |sents|)
    && Taken(sents, s.chosen) + s.budget == limit
  }

  lemma PickBalanced(sents: seq<string>, s: Selection, p: nat, limit: nat)
    requires Balanced(sents, s, limit) && p < |sents| && p !in s.chosen
    ensures Balanced(sents, Pick(sents, s, p), limit)
  {
    if Cost(sents, s.chosen, p) <= s.budget {
      InOrderAdds(sents, s.chosen, p, |sents|);
      InOrderMembers(sents, s.chosen, |sents|);
      if s.chosen == {} {
        InOrderNone(sents, |sents|);
      }
    }
  }

  lemma {:induction false} GreedyBalanced(sents: seq<string>, ranked: seq<nat>, s: Selection, limit: nat)
    requires Balanced(sents, s, limit)
    requires InRange(ranked, |sents|)
    requires forall a :: 0 <= a < |ranked| ==> ranked[a] !in s.chosen
    requires forall a, b :: 0 <= a < b < |ranked| ==> ranked[a] != ranked[b]
    ensures Balanced(sents, Greedy(sents, ranked, s), limit)
    decreases |ranked|
  {
    if ranked != [] {
      PickBalanced(sents, s, ranked[0], limit);
      var next := Pick(sents, s, ranked[0]);
      if next.budget > MARGIN {
        assert forall a :: 0 <= a < |ranked[1..]| ==> ranked[1..][a] == ranked[a + 1];
        GreedyBalanced(sents, ranked[1..], next, limit);
      }
    }
  }

  function Scores(tools: Tools, sents: seq<string>, query: string): seq<real> {
    seq(|sents|, i requires 0 <= i < |sents| => tools.score(sents[i], query))
  }

  function Chosen(tools: Tools, sents: seq<string>, query: string, maxChars: nat): Selection {
    Greedy(sents, Rank(Scores(tools, sents, query), |sents|), Selection({}, maxChars))
  }

  lemma ChosenBalanced(tools: Tools, sents: seq<string>, query: string, maxChars: nat)
    ensures Balanced(sents, Chosen(tools, sents, query, maxChars), maxChars)
  {
    var scores := Scores(tools, sents, query);
    var ranked := Rank(scores, |sents|);
    RankOrdered(scores, |sents|);
    InOrderNone(sents, |sents|);
    GreedyBalanced(sents, ranked, Selection({}, maxChars), maxChars);
  }

  // ---------- The three strategies ----------

  function TruncateText(chunks: seq<string>, maxChars: nat): string {
    var share := maxChars / if |chunks| > 1 then |chunks| else 1;
    Head(Join("\n\n", seq(|chunks|, i requires 0 <= i < |chunks| => Head(chunks[i], share))), maxChars)
  }

  /** The sentences that fit before the first one that does not. */
  function Fitting(sents: seq<string>, parts: seq<string>, used: nat, maxChars: nat): seq<string>
    decreases |sents|
  {
    if sents == [] then parts
    else
      var needed := |sents[0]| + if parts == [] then 0 else 1;
      if used + needed > maxChars then parts else Fitting(sents[1..], parts + [sents[0]], used + needed, maxChars)
  }

  function SentenceText(sents: seq<string>, maxChars: nat): string {
    Trim(PySpace, Join(" ", Fitting(sents, [], 0, maxChars)))
  }

  function ExtractiveText(tools: Tools, chunks: seq<string>, query: string, maxChars: nat): string {
    var sents := Sentences(tools, chunks);
    var s := Chosen(tools, sents, query, maxChars);
    if s.chosen == {} then TruncateText(chunks, maxChars)
    else Trim(PySpace, Join(SEPARATOR, InOrder(sents, s.chosen, |sents|)))
  }

  function Compressed(
    tools: Tools, strategy: Strategy, chunks: seq<string>, query: string, maxChars: nat, minChunk: nat): string {
    var valid := Filter(chunks, minChunk);
    var original := Join("\n\n", valid);
    if valid == [] then ""
    else if |original| <= maxChars then original
    else
      match strategy
      case Truncate => TruncateText(valid, maxChars)
      case Sentence => SentenceText(Sentences(tools, valid), maxChars)
      case Extractive => ExtractiveText(tools, valid, query, maxChars)
  }

  lemma {:induction false} FittingLength(sents: seq<string>, parts: seq<string>, used: nat, maxChars: nat)
    requires used <= maxChars && used == |Join(" ", parts)|
    ensures |Join(" ", Fitting(sents, parts, used, maxChars))| <= maxChars
    decreases |sents|
  {
    if sents != [] {
      var needed := |sents[0]| + if parts == [] then 0 else 1;
      if used + needed <= maxChars {
        JoinLength(" ", parts);
        JoinLength(" ", parts + [sents[0]]);
        TotalLengthSnoc(parts, sents[0]);
        FittingLength(sents[1..], parts + [sents[0]], used + needed, maxChars);
      }
    }
  }

  lemma {:induction false} InOrderTrimmed(sents: seq<string>, chosen: set<nat>, n: nat)
    requires n <= |sents| && AllTrimmed(sents)
    ensures AllTrimmed(InOrder(sents, chosen, n))
  {
    if n > 0 {
      InOrderTrimmed(sents, chosen, n - 1);
    }
  }

  /** MAIN: when a sentence is selected, extractive output is the selected sentences in document
      order, two spaces apart, and it is exactly as long as the budget that was spent. */
  lemma ExtractiveExact(tools: Tools, chunks: seq<string>, query: string, maxChars: nat)
    requires Lawful(tools)
    requires Chosen(tools, Sentences(tools, chunks), query, maxChars).chosen != {}
    ensures
      var sents := Sentences(tools, chunks);
      var s := Chosen(tools, sents, query, maxChars);
      && ExtractiveText(tools, chunks, query, maxChars) == Join(SEPARATOR, InOrder(sents, s.chosen, |sents|))
      && |ExtractiveText(tools, chunks, query, maxChars)| == maxChars - s.budget
  {
    var sents := Sentences(tools, chunks);
    var s := Chosen(tools, sents, query, maxChars);
    SentencesTrimmed(tools, chunks);
    ChosenBalanced(tools, sents, query, maxChars);
    InOrderTrimmed(sents, s.chosen, |sents|);
    InOrderMembers(sents, s.chosen, |sents|);
    var parts := InOrder(sents, s.chosen, |sents|);
    JoinTrimmed(SEPARATOR, parts);
    TrimNothing(Join(SEPARATOR, parts));
    JoinLength(SEPARATOR, parts);
    var p :| p in s.chosen;
    assert parts != [];
  }

  /** MAIN: every strategy's output has at most `maxChars` characters. */
  lemma CompressedFits(
    tools: Tools, strategy: Strategy, chunks: seq<string>, query: string, maxChars: nat, minChunk: nat)
    requires Lawful(tools)
    ensures |Compressed(tools, strategy, chunks, query, maxChars, minChunk)| <= maxChars
  {
    hide Chosen;
    hide Sentences;
    var valid := Filter(chunks, minChunk);
    match strategy
    case Truncate =>
    case Sentence =>
      var sents := Sentences(tools, valid);
      FittingLength(sents, [], 0, maxChars);
      TrimIsTrimmed(PySpace, Join(" ", Fitting(sents, [], 0, maxChars)));
    case Extractive =>
      if Chosen(tools, Sentences(tools, valid), query, maxChars).chosen != {} {
        ExtractiveExact(tools, valid, query, maxChars);
      }
  }

  // ---------- The loops ----------

  class CompressorObject {
    const tools: Tools
    const maxChars: nat
    const strategy: Strategy
    const minChunk: nat

    constructor (tools: Tools, maxChars: nat, strategy: Strategy, minChunk: nat)
      ensures this.tools == tools && this.maxChars == maxChars && this.strategy == strategy && this.minChunk == minChunk
    {
      this.tools, this.maxChars, this.strategy, this.minChunk := tools, maxChars, strategy, minChunk;
    }

    method SentenceStrategy(sents: seq<string>) returns (text: string)
      ensures text == SentenceText(sents, maxChars)
    {
      var parts: seq<string> := [];
      var used := 0;
      var i := 0;
      while i < |sents|
        invariant 0 <= i <= |sents| && 0 <= used
        invariant Fitting(sents[i..], parts, used, maxChars) == Fitting(sents, [], 0, maxChars)
      {
        assert sents[i..][0] == sents[i] && sents[i..][1..] == sents[i + 1..];
        var needed := |sents[i]| + if parts == [] then 0 else 1;
        if used + needed > maxChars { break; }
        parts := parts + [sents[i]];
        used := used + needed;
        i := i + 1;
      }
      return Trim(PySpace, Join(" ", parts));
    }

    method SelectSentences(sents: seq<string>, query: string) returns (s: Selection)
      ensures s == Chosen(tools, sents, query, maxChars)
    {
      var ranked := Rank(Scores(tools, sents, query), |sents|);
      var budget := maxChars;
      var chosen: set<nat> := {};
      var i := 0;
      while i < |ranked|
        invariant 0 <= i <= |ranked| && 0 <= budget
        invariant Greedy(sents, ranked[i..], Selection(chosen, budget)) ==
            Greedy(sents, ranked, Selection({}, maxChars))
      {
        var p := ranked[i];
        assert ranked[i..][0] == p && ranked[i..][1..] == ranked[i + 1..];
        var cost := |sents[p]| + if chosen != {} then |SEPARATOR| else 0;
        if cost <= budget {
          chosen := chosen + {p};
          budget := budget - cost;
        }
        if budget <= MARGIN {
          return Selection(chosen, budget);
        }
        i := i + 1;
      }
      return Selection(chosen, budget);
    }

    method Compress(chunks: seq<string>, query: string) returns (text: string)
      ensures text == Compressed(tools, strategy, chunks, query, maxChars, minChunk)
    {
      var valid := Filter(chunks, minChunk);
      if valid == [] { return ""; }
      var original := Join("\n\n", valid);
      if |original| <= maxChars { return original; }
      match strategy
      case Truncate =>
        text := TruncateText(valid, maxChars);
      case Sentence =>
        text := SentenceStrategy(Sentences(tools, valid));
      case Extractive =>
        var sents := Sentences(tools, valid);
        var s := SelectSentences(sents, query);
        if s.chosen == {} {
          text := TruncateText(valid, maxChars);
        } else {
          text := Trim(PySpace, Join(SEPARATOR, InOrder(sents, s.chosen, |sents|)));
        }
    }
  }

  // ---------- The budget of one context ----------

  ghost function Used(used: map<string, nat>, slots: set<string>): nat
    requires slots <= used.Keys
  {
    if slots == {} then 0
    else
      var s :| s in slots;
      used[s] + Used(used, slots - {s})
  }

  lemma {:induction false} UsedWithout(used: map<string, nat>, slots: set<string>, s: string)
    requires slots <= used.Keys && s in slots
    ensures Used(used, slots) == used[s] + Used(used, slots - {s})
    decreases slots
  {
    var t :| t in slots && Used(used, slots) == used[t] + Used(used, slots - {t});
    if t != s {
      UsedWithout(used, slots - {t}, s);
      UsedWithout(used, slots - {s}, t);
      assert slots - {t} - {s} == slots - {s} - {t};
    }
  }

  lemma {:induction false} UsedAgrees(used: map<string, nat>, other: map<string, nat>, slots: set<string>)
    requires slots <= used.Keys * other.Keys && forall s :: s in slots ==> used[s] == other[s]
    ensures Used(used, slots) == Used(other, slots)
    decreases slots
  {
    if slots != {} {
      var s :| s in slots;
      UsedWithout(used, slots, s);
      UsedWithout(other, slots, s);
      UsedAgrees(used, other, slots - {s});
    }
  }

  /** Setting a slot replaces its old share of the sum, so a slot set twice counts once. */
  lemma UsedReplaced(used: map<string, nat>, slot: string, n: nat)
    ensures
      var next := used[slot := n];
      Used(next, next.Keys) == Used(used, used.Keys) + n - if slot in used then used[slot] else 0
  {
    var next, others := used[slot := n], used.Keys - {slot};
    UsedWithout(next, next.Keys, slot);
    assert next.Keys - {slot} == others;
    UsedAgrees(used, next, others);
    if slot in used {
      UsedWithout(used, used.Keys, slot);
    } else {
      assert others == used.Keys;
    }
  }

  class TokenBudget {
    const total: nat
    var used: map<string, nat>

    constructor (total: nat)
      ensures this.total == total && used == map[]
    {
      this.total := total;
      used := map[];
    }

    method ReserveText(slot: string, text: string)
      modifies this
      ensures used == old(used)[slot := EstimateTokens(text)]
      ensures Used(used, used.Keys) ==
              Used(old(used), old(used).Keys) + EstimateTokens(text) - if slot in old(used) then old(used)[slot] else 0
    {
      UsedReplaced(used, slot, EstimateTokens(text));
      used := used[slot := EstimateTokens(text)];
    }

    method Remaining() returns (r: nat)
      ensures r == if Used(used, used.Keys) <= total then total - Used(used, used.Keys) else 0
    {
      var sum := 0;
      var todo := used.Keys;
      while todo != {}
        invariant todo <= used.Keys && sum + Used(used, todo) == Used(used, used.Keys)
        decreases todo
      {
        var s :| s in todo;
        UsedWithout(used, todo, s);
        sum := sum + used[s];
        todo := todo - {s};
      }
      return if sum <= total then total - sum else 0;
    }
  }

  const SYSTEM_SLOT := "system_prompt"
  const HISTORY_SLOT := "history"
  const DOCS_SLOT := "retrieved_docs"

  /** `ContextEngine.build` from the retrieved chunks on: the three slots never add up to more than
      the budget, unless the system prompt and the history alone already do. */
  method Build(
    tools: Tools, strategy: Strategy, total: nat, systemPrompt: string, history: string, chunks: seq<string>,
    query: string)
    returns (text: string, slots: map<string, nat>)
    requires Lawful(tools)
    ensures slots ==
        map[SYSTEM_SLOT := EstimateTokens(systemPrompt), HISTORY_SLOT := EstimateTokens(history),
          DOCS_SLOT := EstimateTokens(text)]
    ensures
      var fixed := EstimateTokens(systemPrompt) + EstimateTokens(history);
      fixed + slots[DOCS_SLOT] <= if total >= fixed then total else fixed
    ensures
      var fixed := EstimateTokens(systemPrompt) + EstimateTokens(history);
      var room := if total > fixed then 4 * (total - fixed) else 1;
      text == Compressed(tools, strategy, chunks, query, room, 20)
  {
    hide Compressed;
    var budget := new TokenBudget(total);
    budget.ReserveText(SYSTEM_SLOT, systemPrompt);
    budget.ReserveText(HISTORY_SLOT, history);
    TwoSlots(budget.used);
    var remaining := budget.Remaining();
    var remainingChars := remaining * 4;
    var room := if remainingChars >= 1 then remainingChars else 1;
    var compressor := new CompressorObject(tools, room, strategy, 20);
    text := compressor.Compress(chunks, query);
    CompressedFits(tools, strategy, chunks, query, room, 20);
    budget.ReserveText(DOCS_SLOT, text);
    slots := budget.used;
  }

  lemma TwoSlots(used: map<string, nat>)
    requires used.Keys == {SYSTEM_SLOT, HISTORY_SLOT}
    ensures Used(used, used.Keys) == used[SYSTEM_SLOT] + used[HISTORY_SLOT]
  {
    assert SYSTEM_SLOT[0] != HISTORY_SLOT[0];
    UsedWithout(used, used.Keys, SYSTEM_SLOT);
    assert used.Keys - {SYSTEM_SLOT} == {HISTORY_SLOT};
    UsedWithout(used, {HISTORY_SLOT}, HISTORY_SLOT);
    assert {HISTORY_SLOT} - {HISTORY_SLOT} == {};
  }
}
