/** Cutting text into overlapping chunks: `server/import/chunker.ts`. */
module Chunker {

  datatype Section = Section(breadcrumb: string, body: string)
  datatype Piece = Piece(breadcrumb: string, text: string)
  datatype Chunk = Chunk(text: string, breadcrumb: string, index: nat, total: nat)

  function Min(a: int, b: int): int {
    if a <= b then a else b
  }

  function Max(a: int, b: int): int {
    if a >= b then a else b
  }

  /** The pieces cut from position `i` on. */
  function CutFrom(body: string, maxChars: nat, overlap: nat, i: nat): seq<string>
    requires overlap < maxChars
    decreases |body| - i
  {
    if i >= |body| then []
    else
      var end := Min(|body|, i + maxChars);
      if end == |body| then [body[i..]]
      else [body[i..end]] + CutFrom(body, maxChars, overlap, end - overlap)
  }

  /** The position after a round of the loop that starts a piece at `i`. */
  function NextStart(length: nat, maxChars: nat, overlap: nat, i: nat): nat {
    Max(0, Min(length, i + maxChars) - overlap)
  }

  /** Where the loop starts piece `k`, as long as it goes on. */
  function StartOf(length: nat, maxChars: nat, overlap: nat, k: nat): nat {
    if k == 0 then 0 else NextStart(length, maxChars, overlap, StartOf(length, maxChars, overlap, k - 1))
  }

  /** The piece that starts at `i` reaches the end of the body. */
  predicate Stops(length: nat, maxChars: nat, i: nat) {
    i + maxChars >= length
  }

  predicate IsPiece(body: string, maxChars: nat, start: nat, piece: string) {
    start <= |body| && piece == body[start..Min(|body|, start + maxChars)]
  }

  /** `out` are the pieces of the first rounds, none of which stopped the loop, but the last if `done`. */
  ghost predicate Rounds(body: string, maxChars: nat, overlap: nat, out: seq<string>, done: bool) {
    forall k :: 0 <= k < |out| ==>
      && IsPiece(body, maxChars, StartOf(|body|, maxChars, overlap, k), out[k])
      && (Stops(|body|, maxChars, StartOf(|body|, maxChars, overlap, k)) <==> done && k == |out| - 1)
  }

  lemma OneMoreRound(body: string, maxChars: nat, overlap: nat, out: seq<string>, i: nat)
    requires overlap < maxChars && Rounds(body, maxChars, overlap, out, false)
    requires i == StartOf(|body|, maxChars, overlap, |out|) && i < |body|
    ensures
      var end := Min(|body|, i + maxChars);
      && Rounds(body, maxChars, overlap, out + [body[i..end]], end >= |body|)
      && Max(0, end - overlap) == StartOf(|body|, maxChars, overlap, |out| + 1)
  {
    var more := out + [body[i..Min(|body|, i + maxChars)]];
    assert StartOf(|body|, maxChars, overlap, |out| + 1) == NextStart(|body|, maxChars, overlap, i);
    hide StartOf;
    forall k | 0 <= k < |more|
      ensures IsPiece(body, maxChars, StartOf(|body|, maxChars, overlap, k), more[k])
      ensures Stops(|body|, maxChars, StartOf(|body|, maxChars, overlap, k)) <==>
          Min(|body|, i + maxChars) >= |body| && k == |more| - 1
    {
      if k < |out| { assert more[k] == out[k]; }
    }
  }

  /** `hardCut`. It is only called on bodies longer than `maxChars`, and then ends exactly when the
      overlap is smaller than a piece; see `LoopEndsIff`. */
  method HardCut(body: string, maxChars: nat, overlap: nat) returns (out: seq<string>)
    requires overlap < maxChars
    ensures out == CutFrom(body, maxChars, overlap, 0)
    ensures Rounds(body, maxChars, overlap, out, true)
  {
    assert StartOf(|body|, maxChars, overlap, 0) == 0;
    hide CutFrom, StartOf, Rounds;
    assert Rounds(body, maxChars, overlap, [], false)
      && Rounds(body, maxChars, overlap, [], true) by { NoRounds(body, maxChars, overlap); }
    out := [];
    var i: int := 0;
    while i < |body|
      invariant 0 <= i <= |body| && i == StartOf(|body|, maxChars, overlap, |out|)
      invariant Rounds(body, maxChars, overlap, out, false) && (out == [] || i < |body|)
      invariant out + CutFrom(body, maxChars, overlap, i) == CutFrom(body, maxChars, overlap, 0)
      decreases |body| - i
    {
      var end := Min(|body|, i + maxChars);
      CutStep(body, maxChars, overlap, i, out);
      OneMoreRound(body, maxChars, overlap, out, i);
      out := out + [body[i..end]];
      if end >= |body| { return; }
      i := Max(0, end - overlap);
    }
    CutNone(body, maxChars, overlap, out);
  }

  lemma NoRounds(body: string, maxChars: nat, overlap: nat)
    ensures Rounds(body, maxChars, overlap, [], false) && Rounds(body, maxChars, overlap, [], true)
  {
  }

  lemma CutStep(body: string, maxChars: nat, overlap: nat, i: nat, out: seq<string>)
    requires overlap < maxChars && i < |body|
    ensures
      var end := Min(|body|, i + maxChars);
      var longer := out + [body[i..end]];
      out + CutFrom(body, maxChars, overlap, i) ==
        if end == |body| then longer else longer + CutFrom(body, maxChars, overlap, end - overlap)
  {
    var end := Min(|body|, i + maxChars);
    if end == |body| {
      assert body[i..end] == body[i..];
    } else {
      var rest := CutFrom(body, maxChars, overlap, end - overlap);
      assert CutFrom(body, maxChars, overlap, i) == [body[i..end]] + rest;
      hide CutFrom;
      assert out + ([body[i..end]] + rest) == (out + [body[i..end]]) + rest;
    }
  }

  lemma CutNone(body: string, maxChars: nat, overlap: nat, out: seq<string>)
    requires overlap < maxChars
    ensures out + CutFrom(body, maxChars, overlap, |body|) == out
  {
  }

  lemma {:induction false} StartsAdvance(length: nat, maxChars: nat, overlap: nat, k: nat)
    requires overlap < maxChars && forall j: nat :: j < k ==>
        !Stops(length, maxChars, StartOf(length, maxChars, overlap, j))
    ensures StartOf(length, maxChars, overlap, k) >= k
  {
    if k > 0 {
      StartsAdvance(length, maxChars, overlap, k - 1);
    }
  }

  lemma {:induction false} StartsStay(length: nat, maxChars: nat, overlap: nat, k: nat)
    requires maxChars < length && maxChars <= overlap
    ensures StartOf(length, maxChars, overlap, k) == 0
  {
    if k > 0 {
      StartsStay(length, maxChars, overlap, k - 1);
    }
  }

  /** The loop ends with piece `k`, if it did not end before. */
  predicate EndsAt(length: nat, maxChars: nat, overlap: nat, k: nat) {
    Stops(length, maxChars, StartOf(length, maxChars, overlap, k))
  }

  /** MAIN: the loop reaches a piece it stops after if and only if the body is one piece or the overlap
      is smaller than a piece; otherwise it pushes the first piece for ever. */
  lemma LoopEndsIff(length: nat, maxChars: nat, overlap: nat)
    ensures (exists k: nat :: EndsAt(length, maxChars, overlap, k)) <==> length <= maxChars || overlap < maxChars
    ensures !(length <= maxChars || overlap < maxChars) ==> forall k: nat :: StartOf(length, maxChars, overlap, k) == 0
  {
    if length <= maxChars {
      assert EndsAt(length, maxChars, overlap, 0);
    } else if overlap < maxChars {
      if j: nat :| j < length && Stops(length, maxChars, StartOf(length, maxChars, overlap, j)) {
        assert EndsAt(length, maxChars, overlap, j);
      } else {
        StartsAdvance(length, maxChars, overlap, length);
        assert EndsAt(length, maxChars, overlap, length);
      }
    } else {
      forall k: nat ensures StartOf(length, maxChars, overlap, k) == 0 {
        StartsStay(length, maxChars, overlap, k);
      }
    }
  }

  /** Join pieces again, dropping from every later piece the characters it repeats. */
  function Rejoin(pieces: seq<string>, overlap: nat): string {
    if pieces == [] then ""
    else pieces[0] + RejoinLater(pieces[1..], overlap)
  }

  function RejoinLater(pieces: seq<string>, overlap: nat): string {
    if pieces == [] then ""
    else (if overlap <= |pieces[0]| then pieces[0][overlap..] else "") + RejoinLater(pieces[1..], overlap)
  }

  lemma {:induction false} CutShape(body: string, maxChars: nat, overlap: nat, i: nat)
    requires overlap < maxChars && i < |body|
    ensures
      var pieces := CutFrom(body, maxChars, overlap, i);
      && pieces != []
      && (forall k :: 0 <= k < |pieces| ==> 0 < |pieces[k]| <= maxChars)
      && (forall k :: 0 <= k < |pieces| - 1 ==> |pieces[k]| == maxChars)
    decreases |body| - i
  {
    if i + maxChars < |body| {
      CutShape(body, maxChars, overlap, i + maxChars - overlap);
    }
  }

  ghost predicate AllLonger(pieces: seq<string>, overlap: nat) {
    forall k :: 0 <= k < |pieces| ==> |pieces[k]| > overlap
  }

  lemma ConsLonger(p: string, rest: seq<string>, overlap: nat)
    requires |p| > overlap && AllLonger(rest, overlap)
    ensures AllLonger([p] + rest, overlap)
  {
  }

  /** Pieces after the first bring new characters. */
  lemma {:induction false} CutLaterSizes(body: string, maxChars: nat, overlap: nat, i: nat)
    requires overlap < maxChars && i + overlap < |body|
    ensures AllLonger(CutFrom(body, maxChars, overlap, i), overlap)
    decreases |body| - i
  {
    hide AllLonger;
    var pieces := CutFrom(body, maxChars, overlap, i);
    if i + maxChars < |body| {
      var rest := CutFrom(body, maxChars, overlap, i + maxChars - overlap);
      assert pieces == [body[i..i + maxChars]] + rest;
      CutLaterSizes(body, maxChars, overlap, i + maxChars - overlap);
      ConsLonger(body[i..i + maxChars], rest, overlap);
    } else {
      assert pieces == [body[i..]] + [];
      NoneShorter(overlap);
      ConsLonger(body[i..], [], overlap);
    }
  }

  lemma NoneShorter(overlap: nat)
    ensures AllLonger([], overlap)
  {
  }

  /** Behind the `overlap` characters that they repeat, they bring the rest of the body. */
  lemma {:induction false} CutLater(body: string, maxChars: nat, overlap: nat, i: nat)
    requires overlap < maxChars && i + overlap < |body|
    ensures RejoinLater(CutFrom(body, maxChars, overlap, i), overlap) == body[i + overlap..]
    decreases |body| - i
  {
    hide RejoinLater;
    var pieces := CutFrom(body, maxChars, overlap, i);
    if i + maxChars < |body| {
      var start, end := i + maxChars - overlap, i + maxChars;
      var rest := CutFrom(body, maxChars, overlap, start);
      assert pieces == [body[i..end]] + rest;
      hide CutFrom;
      CutLater(body, maxChars, overlap, start);
      RejoinCons(body[i..end], rest, overlap);
      NewThenRest(body, i, end, overlap);
    } else {
      assert pieces == [body[i..]] + [];
      hide CutFrom;
      RejoinCons(body[i..], [], overlap);
    }
  }

  lemma NewThenRest(body: string, i: nat, end: nat, overlap: nat)
    requires i + overlap <= end <= |body|
    ensures body[i..end][overlap..] + body[end..] == body[i + overlap..]
  {
  }

  lemma RejoinCons(p: string, rest: seq<string>, overlap: nat)
    requires overlap <= |p|
    ensures RejoinLater([p] + rest, overlap) == p[overlap..] + RejoinLater(rest, overlap)
    ensures rest == [] ==> RejoinLater([p] + rest, overlap) == p[overlap..]
  {
    assert ([p] + rest)[1..] == rest;
  }

  /** `q` begins with the last `overlap` characters of `p`. */
  ghost predicate Follows(p: string, q: string, overlap: nat) {
    |p| >= overlap && |q| >= overlap && p[|p| - overlap..] == q[..overlap]
  }

  /** Each piece but the first begins with the last `overlap` characters of the piece before it. */
  ghost predicate Overlaps(pieces: seq<string>, overlap: nat) {
    |pieces| >= 2 ==> Follows(pieces[0], pieces[1], overlap) && Overlaps(pieces[1..], overlap)
  }

  lemma OverlapsCons(p: string, rest: seq<string>, overlap: nat)
    requires Overlaps(rest, overlap) && rest != [] && Follows(p, rest[0], overlap)
    ensures Overlaps([p] + rest, overlap)
  {
    assert ([p] + rest)[1..] == rest;
  }

  lemma FirstOverlap(body: string, maxChars: nat, overlap: nat, i: nat)
    requires overlap < maxChars && i + maxChars < |body|
    ensures
      var end := i + maxChars;
      var rest := CutFrom(body, maxChars, overlap, end - overlap);
      rest != [] && Follows(body[i..end], rest[0], overlap)
  {
    var end := i + maxChars;
    var start := end - overlap;
    var second := body[start..Min(|body|, start + maxChars)];
    assert CutFrom(body, maxChars, overlap, start)[0] == second;
    hide CutFrom;
    Subslice(body, start, Min(|body|, start + maxChars), 0, overlap);
    Subslice(body, i, end, maxChars - overlap, maxChars);
    assert second[..overlap] == second[0..overlap];
    assert body[i..end][maxChars - overlap..] == body[i..end][maxChars - overlap..maxChars];
  }

  lemma Subslice(s: string, lo: nat, hi: nat, from: nat, to: nat)
    requires lo <= hi <= |s| && from <= to <= hi - lo
    ensures s[lo..hi][from..to] == s[lo + from..lo + to]
  {
    var inner, direct := s[lo..hi][from..to], s[lo + from..lo + to];
    forall k | 0 <= k < |inner| ensures inner[k] == direct[k] {
      assert inner[k] == s[lo..hi][from + k] == s[lo + from + k];
    }
  }

  lemma {:induction false} CutOverlaps(body: string, maxChars: nat, overlap: nat, i: nat)
    requires overlap < maxChars && i < |body|
    ensures Overlaps(CutFrom(body, maxChars, overlap, i), overlap)
    decreases |body| - i
  {
    hide Overlaps;
    if i + maxChars < |body| {
      var end := i + maxChars;
      CutOverlaps(body, maxChars, overlap, end - overlap);
      FirstOverlap(body, maxChars, overlap, i);
      OverlapsCons(body[i..end], CutFrom(body, maxChars, overlap, end - overlap), overlap);
    } else {
      OneOverlaps(body[i..], overlap);
    }
  }

  lemma OneOverlaps(p: string, overlap: nat)
    ensures Overlaps([p], overlap)
  {
  }

  /** `n / d`, rounded up. */
  function CeilDiv(n: nat, d: nat): nat
    requires d > 0
  {
    if n == 0 then 0 else if n <= d then 1 else 1 + CeilDiv(n - d, d)
  }

  /** It is the least number of `d`s that cover `n`. */
  lemma {:induction false} CeilDivIsLeast(n: nat, d: nat)
    requires d > 0
    ensures CeilDiv(n, d) * d >= n && (n > 0 ==> (CeilDiv(n, d) - 1) * d < n)
    decreases n
  {
    if n > d {
      CeilDivIsLeast(n - d, d);
      var c := CeilDiv(n - d, d);
      assert (1 + c) * d == d + c * d;
      assert c * d == (c - 1) * d + d;
    }
  }

  /** How many characters `n` full pieces cover. */
  function Reach(maxChars: nat, overlap: nat, n: nat): int
    requires overlap < maxChars && n > 0
  {
    maxChars + (n - 1) * (maxChars - overlap)
  }

  lemma {:induction false} CutCount(body: string, maxChars: nat, overlap: nat, i: nat)
    requires overlap < maxChars && i < |body|
    ensures |CutFrom(body, maxChars, overlap, i)| ==
            if |body| - i <= maxChars then 1 else 1 + CeilDiv(|body| - i - maxChars, maxChars - overlap)
    decreases |body| - i
  {
    var d := maxChars - overlap;
    if i + maxChars < |body| {
      var j := i + d;
      CutCount(body, maxChars, overlap, j);
    }
  }

  /** The first piece and what the later ones bring make the body. */
  lemma CutRejoins(body: string, maxChars: nat, overlap: nat)
    requires overlap < maxChars && body != ""
    ensures
      var pieces := CutFrom(body, maxChars, overlap, 0);
      Rejoin(pieces, overlap) == body && pieces != [] && AllLonger(pieces[1..], overlap)
  {
    var pieces := CutFrom(body, maxChars, overlap, 0);
    if maxChars < |body| {
      var rest := CutFrom(body, maxChars, overlap, maxChars - overlap);
      assert pieces == [body[..maxChars]] + rest;
      CutLater(body, maxChars, overlap, maxChars - overlap);
      CutLaterSizes(body, maxChars, overlap, maxChars - overlap);
      hide CutFrom, RejoinLater;
      assert pieces[1..] == rest;
      assert body[maxChars - overlap + overlap..] == body[maxChars..];
      assert body[..maxChars] + body[maxChars..] == body;
    } else {
      assert pieces == [body];
      assert pieces[1..] == [];
    }
  }

  lemma PiecesReach(length: nat, maxChars: nat, overlap: nat)
    requires overlap < maxChars
    ensures
      var n := if length <= maxChars then 1 else 1 + CeilDiv(length - maxChars, maxChars - overlap);
      Reach(maxChars, overlap, n) >= length && (n > 1 ==> Reach(maxChars, overlap, n - 1) < length)
  {
    hide CeilDiv;
    if length > maxChars {
      CeilDivIsLeast(length - maxChars, maxChars - overlap);
    }
  }

  /** MAIN: for an overlap smaller than a piece, the cut ends with non-empty pieces of at most
      `maxChars`; every later piece repeats exactly `overlap` characters and adds some; dropping what
      is repeated gives the body back; and the number of pieces is the least that reaches the end. */
  lemma HardCutLosesNothing(body: string, maxChars: nat, overlap: nat)
    requires overlap < maxChars && body != ""
    ensures
      var pieces := CutFrom(body, maxChars, overlap, 0);
      && (forall k :: 0 <= k < |pieces| ==> 0 < |pieces[k]| <= maxChars)
      && AllLonger(pieces[1..], overlap)
      && Overlaps(pieces, overlap)
      && Rejoin(pieces, overlap) == body
      && |pieces| == (if |body| <= maxChars then 1 else 1 + CeilDiv(|body| - maxChars, maxChars - overlap))
      && Reach(maxChars, overlap, |pieces|) >= |body|
      && (|pieces| > 1 ==> Reach(maxChars, overlap, |pieces| - 1) < |body|)
  {
    hide Overlaps, CeilDiv, Reach, CutFrom, Rejoin;
    CutShape(body, maxChars, overlap, 0);
    CutCount(body, maxChars, overlap, 0);
    PiecesReach(|body|, maxChars, overlap);
    CutOverlaps(body, maxChars, overlap, 0);
    CutRejoins(body, maxChars, overlap);
  }

  /** No section needs a cut that would never end; see `LoopEndsIff`. */
  predicate CutsEnd(sections: seq<Section>, maxChars: nat, overlap: nat) {
    forall s :: 0 <= s < |sections| && |sections[s].body| > maxChars ==> overlap < maxChars
  }

  function SectionPieces(sec: Section, maxChars: nat, overlap: nat): seq<string>
    requires |sec.body| > maxChars ==> overlap < maxChars
  {
    if |sec.body| <= maxChars then [sec.body] else CutFrom(sec.body, maxChars, overlap, 0)
  }

  function Pieces(sections: seq<Section>, maxChars: nat, overlap: nat): seq<Piece>
    requires CutsEnd(sections, maxChars, overlap)
  {
    if sections == [] then []
    else
      var texts := SectionPieces(sections[0], maxChars, overlap);
      Labelled(sections[0].breadcrumb, texts) + Pieces(sections[1..], maxChars, overlap)
  }

  /** The pieces of one section, under its breadcrumb. */
  function Labelled(breadcrumb: string, texts: seq<string>): seq<Piece> {
    seq(|texts|, i requires 0 <= i < |texts| => Piece(breadcrumb, texts[i]))
  }

  /** The inner push loop. */
  method PushPieces(pieces: seq<Piece>, breadcrumb: string, texts: seq<string>) returns (out: seq<Piece>)
    ensures out == pieces + Labelled(breadcrumb, texts)
  {
    out := pieces;
    var p := 0;
    while p < |texts|
      invariant 0 <= p <= |texts|
      invariant out == pieces + Labelled(breadcrumb, texts)[..p]
    {
      out := out + [Piece(breadcrumb, texts[p])];
      p := p + 1;
    }
  }

  lemma PiecesStep(sections: seq<Section>, s: nat, maxChars: nat, overlap: nat, before: seq<Piece>)
    requires CutsEnd(sections, maxChars, overlap) && s < |sections|
    ensures
      before + Pieces(sections[s..], maxChars, overlap) ==
      (before + Labelled(sections[s].breadcrumb, SectionPieces(sections[s], maxChars, overlap)))
        + Pieces(sections[s + 1..], maxChars, overlap)
  {
    assert sections[s..][1..] == sections[s + 1..];
    var own, rest := Labelled(sections[s].breadcrumb, SectionPieces(sections[s], maxChars, overlap)),
      Pieces(sections[s + 1..], maxChars, overlap);
    assert Pieces(sections[s..], maxChars, overlap) == own + rest;
    hide Pieces, Labelled, SectionPieces;
    assert before + (own + rest) == (before + own) + rest;
  }

  /** `chunkMarkdown` after the text has been divided into sections. */
  method ChunkSections(sections: seq<Section>, maxChars: nat, overlap: nat) returns (chunks: seq<Chunk>)
    requires CutsEnd(sections, maxChars, overlap)
    ensures
      var pieces := Pieces(sections, maxChars, overlap);
      && |chunks| == |pieces|
      && forall i :: 0 <= i < |chunks| ==> chunks[i] == Chunk(pieces[i].text, pieces[i].breadcrumb, i, |pieces|)
  {
    hide CutFrom, Labelled;
    var pieces: seq<Piece> := [];
    var s := 0;
    while s < |sections|
      invariant 0 <= s <= |sections|
      invariant pieces + Pieces(sections[s..], maxChars, overlap) == Pieces(sections, maxChars, overlap)
    {
      var sec := sections[s];
      PiecesStep(sections, s, maxChars, overlap, pieces);
      var texts := [sec.body];
      if |sec.body| > maxChars {
        texts := HardCut(sec.body, maxChars, overlap);
      }
      pieces := PushPieces(pieces, sec.breadcrumb, texts);
      s := s + 1;
    }
    assert Pieces(sections[s..], maxChars, overlap) == [];
    chunks := seq(|pieces|, i requires 0 <= i < |pieces| => Chunk(pieces[i].text, pieces[i].breadcrumb, i, |pieces|));
  }
}
