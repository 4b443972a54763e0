/** The auto-batcher of `retrieval/embed_batcher.py`: callers put texts into a shared buffer, flushes
    take batches off its front, call the model, fill each caller's holder and wake it. The protocol
    interleaves callers and any number of concurrent flushes. */
module EmbedBatcher {
  import opened Options

  type Vec = seq<real>

  /** A buffer entry; `id` stands for its event and holder. */
  datatype Entry = Entry(id: nat, text: string)
  datatype Holder = Waiting | Vector(v: Vec) | Raised(error: string)

  /** The model's answer to a batch: a list of vectors, or an exception. */
  datatype Answer = Vectors(vecs: seq<Vec>) | Exception(error: string)

  /** A flush that has taken its batch: the answer once it is there, how many holders it has filled
      and how many callers it has woken. */
  datatype Flush = Flush(batch: seq<Entry>, answer: Option<Answer>, filled: nat, woken: nat)

  /** `log` records every text ever buffered, in order. */
  datatype State = State(buffer: seq<Entry>, log: seq<string>, flushes: seq<Flush>, holders: map<nat, Holder>,
      awake: set<nat>)

  const INITIAL: State := State([], [], [], map[], {})

  datatype Action =
    | Enqueue(texts: seq<string>)
    | Take
    | Compute(flush: nat, answer: Answer)
    | Fill(flush: nat)
    | Wake(flush: nat)

  function NewEntries(first: nat, texts: seq<string>): seq<Entry> {
    seq(|texts|, i requires 0 <= i < |texts| => Entry(first + i, texts[i]))
  }

  function FreshHolders(entries: seq<Entry>): map<nat, Holder> {
    map e | e in entries :: e.id := Waiting
  }

  lemma FreshNone()
    ensures FreshHolders([]) == map[]
  {
  }

  lemma FreshSnoc(entries: seq<Entry>, e: Entry)
    ensures FreshHolders(entries + [e]) == FreshHolders(entries)[e.id := Waiting]
  {
  }

  function Front<T>(s: seq<T>, n: nat): seq<T> {
    if n <= |s| then s[..n] else s
  }

  function Rest<T>(s: seq<T>, n: nat): seq<T> {
    if n <= |s| then s[n..] else []
  }

  /** What the model promises: one vector per text of the batch, in order. `embed` is the embedding of
      one text. */
  predicate Answers(embed: string -> Vec, batch: seq<Entry>, answer: Answer) {
    answer.Vectors? ==> |answer.vecs| == |batch| && forall i :: 0 <= i < |batch| ==>
      answer.vecs[i] == embed(batch[i].text)
  }

  /** What the flush writes into holder `i` of its batch. */
  function Written(answer: Answer, i: nat): Holder
    requires answer.Vectors? ==> i < |answer.vecs|
  {
    match answer
    case Vectors(vecs) => Vector(vecs[i])
    case Exception(error) => Raised(error)
  }

  /** What a caller is owed for its text. */
  function Owed(embed: string -> Vec, answer: Answer, text: string): Holder {
    match answer
    case Vectors(_) => Vector(embed(text))
    case Exception(error) => Raised(error)
  }

  predicate Enabled(embed: string -> Vec, s: State, a: Action, maxBatch: nat) {
    match a
    case Enqueue(texts) => 1 <= |texts| <= maxBatch
    case Take => true
    case Compute(f, answer) => f < |s.flushes| && s.flushes[f].answer.None?
      && Answers(embed, s.flushes[f].batch, answer)
    case Fill(f) =>
      && f < |s.flushes| && s.flushes[f].answer.Some?
      && s.flushes[f].filled == s.flushes[f].woken < |s.flushes[f].batch|
      && (s.flushes[f].answer.value.Vectors? ==> s.flushes[f].filled < |s.flushes[f].answer.value.vecs|)
    case Wake(f) =>
      f < |s.flushes| && 0 < s.flushes[f].filled <= |s.flushes[f].batch|
        && s.flushes[f].filled == s.flushes[f].woken + 1
  }

  function Apply(embed: string -> Vec, maxBatch: nat, s: State, a: Action): State
    requires Enabled(embed, s, a, maxBatch)
  {
    match a
    case Enqueue(texts) =>
      s.(buffer := s.buffer + NewEntries(|s.log|, texts), log := s.log + texts,
         holders := s.holders + FreshHolders(NewEntries(|s.log|, texts)))
    case Take =>
      if s.buffer == [] then s
      else s.(buffer := Rest(s.buffer, maxBatch), flushes := s.flushes + [Flush(Front(s.buffer, maxBatch), None, 0, 0)])
    case Compute(f, answer) =>
      s.(flushes := s.flushes[f := s.flushes[f].(answer := Some(answer))])
    case Fill(f) =>
      var fl := s.flushes[f];
      var e := fl.batch[fl.filled];
      s.(flushes := s.flushes[f := fl.(filled := fl.filled + 1)],
         holders := s.holders[e.id := Written(fl.answer.value, fl.filled)])
    case Wake(f) =>
      var fl := s.flushes[f];
      s.(flushes := s.flushes[f := fl.(woken := fl.woken + 1)], awake := s.awake + {fl.batch[fl.woken].id})
  }

  ghost predicate Runs(embed: string -> Vec, maxBatch: nat, s: State, actions: seq<Action>)
    decreases |actions|
  {
    actions == []
      || (Enabled(embed, s, actions[0], maxBatch)
            && Runs(embed, maxBatch, Apply(embed, maxBatch, s, actions[0]), actions[1..]))
  }

  ghost function Run(embed: string -> Vec, maxBatch: nat, s: State, actions: seq<Action>): State
    requires Runs(embed, maxBatch, s, actions)
    decreases |actions|
  {
    if actions == [] then s else Run(embed, maxBatch, Apply(embed, maxBatch, s, actions[0]), actions[1..])
  }

  // ---------- The invariant ----------

  function Taken(flushes: seq<Flush>): seq<Entry> {
    if flushes == [] then [] else Taken(flushes[..|flushes| - 1]) + flushes[|flushes| - 1].batch
  }

  /** Batches taken so far, then the buffer, are all entries ever made, in order of arrival. */
  ghost predicate Fifo(s: State) {
    Taken(s.flushes) + s.buffer == NewEntries(0, s.log)
  }

  ghost predicate FlushOk(embed: string -> Vec, maxBatch: nat, s: State, fl: Flush) {
    && 1 <= |fl.batch| <= maxBatch
    && fl.woken <= fl.filled <= |fl.batch| && fl.filled <= fl.woken + 1
    && (fl.filled > 0 ==> fl.answer.Some?)
    && (fl.answer.Some? ==> Answers(embed, fl.batch, fl.answer.value))
    && (forall i :: 0 <= i < |fl.batch| ==> fl.batch[i].id in s.holders)
    && (forall i :: 0 <= i < fl.filled ==> s.holders[fl.batch[i].id] == Owed(embed, fl.answer.value, fl.batch[i].text))
    && (forall i :: fl.filled <= i < |fl.batch| ==> s.holders[fl.batch[i].id] == Waiting)
  }

  /** The caller `id` has been woken by the flush `fl`. */
  ghost predicate WokenBy(fl: Flush, id: nat) {
    exists i :: 0 <= i < fl.woken && i < |fl.batch| && fl.batch[i].id == id
  }

  ghost predicate BufferWaits(s: State) {
    forall i :: 0 <= i < |s.buffer| ==> s.buffer[i].id in s.holders && s.holders[s.buffer[i].id] == Waiting
  }

  ghost predicate AwakeOk(s: State) {
    forall id :: id in s.awake ==> exists f :: 0 <= f < |s.flushes| && WokenBy(s.flushes[f], id)
  }

  ghost predicate Inv(embed: string -> Vec, maxBatch: nat, s: State) {
    && Fifo(s) && BufferWaits(s) && AwakeOk(s)
    && (forall f :: 0 <= f < |s.flushes| ==> FlushOk(embed, maxBatch, s, s.flushes[f]))
  }

  // ---------- Positions ----------

  /** Where the batch of flush `f` begins among all entries. */
  function Offset(flushes: seq<Flush>, f: nat): nat
    requires f <= |flushes|
  {
    |Taken(flushes[..f])|
  }

  lemma {:induction false} TakenAt(flushes: seq<Flush>, f: nat, i: nat)
    requires f < |flushes| && i < |flushes[f].batch|
    ensures Offset(flushes, f) + i < |Taken(flushes)| && Taken(flushes)[Offset(flushes, f) + i] == flushes[f].batch[i]
    decreases |flushes|
  {
    var front := flushes[..|flushes| - 1];
    if f < |front| {
      TakenAt(front, f, i);
      assert front[..f] == flushes[..f];
    } else {
      assert flushes[..f] == front;
    }
  }

  /** In FIFO order every entry's id is its position, so no entry is in two batches or twice in one. */
  lemma EntryIds(s: State, f: nat, i: nat)
    requires Fifo(s) && f < |s.flushes| && i < |s.flushes[f].batch|
    ensures s.flushes[f].batch[i].id == Offset(s.flushes, f) + i < |Taken(s.flushes)|
    ensures s.flushes[f].batch[i].id < |s.log| && s.flushes[f].batch[i].text == s.log[s.flushes[f].batch[i].id]
  {
    TakenAt(s.flushes, f, i);
    var all := NewEntries(0, s.log);
    assert (Taken(s.flushes) + s.buffer)[Offset(s.flushes, f) + i] == all[Offset(s.flushes, f) + i];
  }

  lemma BufferIds(s: State, i: nat)
    requires Fifo(s) && i < |s.buffer|
    ensures s.buffer[i].id == |Taken(s.flushes)| + i < |s.log|
  {
    var all := NewEntries(0, s.log);
    assert (Taken(s.flushes) + s.buffer)[|Taken(s.flushes)| + i] == all[|Taken(s.flushes)| + i];
  }

  lemma {:induction false} OffsetStep(flushes: seq<Flush>, f: nat, g: nat)
    requires f < g <= |flushes|
    ensures Offset(flushes, f) + |flushes[f].batch| <= Offset(flushes, g)
    decreases g
  {
    assert flushes[..g][..g - 1] == flushes[..g - 1];
    if f < g - 1 {
      OffsetStep(flushes, f, g - 1);
    }
  }

  /** Two places in the batches hold the same caller only if they are one place. */
  lemma TakenOnce(s: State, f: nat, i: nat, g: nat, j: nat)
    requires Fifo(s) && f < |s.flushes| && i < |s.flushes[f].batch| && g < |s.flushes| && j < |s.flushes[g].batch|
    requires s.flushes[f].batch[i].id == s.flushes[g].batch[j].id
    ensures f == g && i == j
  {
    EntryIds(s, f, i);
    EntryIds(s, g, j);
    if f < g { OffsetStep(s.flushes, f, g); }
    if g < f { OffsetStep(s.flushes, g, f); }
  }

  // ---------- Every step keeps the invariant ----------

  lemma {:induction false} TakenUpdate(flushes: seq<Flush>, f: nat, fl: Flush)
    requires f < |flushes| && fl.batch == flushes[f].batch
    ensures Taken(flushes[f := fl]) == Taken(flushes)
    decreases |flushes|
  {
    var front := flushes[..|flushes| - 1];
    if f < |front| {
      TakenUpdate(front, f, fl);
      assert flushes[f := fl][..|flushes| - 1] == front[f := fl];
    } else {
      assert flushes[f := fl][..|flushes| - 1] == front;
    }
  }

  lemma EnqueueFifo(embed: string -> Vec, maxBatch: nat, s: State, texts: seq<string>)
    requires Fifo(s) && Enabled(embed, s, Enqueue(texts), maxBatch)
    ensures Fifo(Apply(embed, maxBatch, s, Enqueue(texts)))
  {
    hide Taken;
    var added := NewEntries(|s.log|, texts);
    assert NewEntries(0, s.log + texts) == NewEntries(0, s.log) + added;
    assert Taken(s.flushes) + (s.buffer + added) == (Taken(s.flushes) + s.buffer) + added;
  }

  lemma EnqueueHolders(embed: string -> Vec, maxBatch: nat, s: State, texts: seq<string>, id: nat)
    requires Enabled(embed, s, Enqueue(texts), maxBatch)
    ensures
      var t := Apply(embed, maxBatch, s, Enqueue(texts));
      if |s.log| <= id < |s.log| + |texts| then id in t.holders && t.holders[id] == Waiting
      else (id in t.holders <==> id in s.holders) && (id in s.holders ==> t.holders[id] == s.holders[id])
  {
    var added := NewEntries(|s.log|, texts);
    if |s.log| <= id < |s.log| + |texts| {
      assert added[id - |s.log|] in added;
    }
  }

  lemma EnqueueKeeps(embed: string -> Vec, maxBatch: nat, s: State, texts: seq<string>)
    requires Inv(embed, maxBatch, s) && Enabled(embed, s, Enqueue(texts), maxBatch)
    ensures Inv(embed, maxBatch, Apply(embed, maxBatch, s, Enqueue(texts)))
  {
    var t := Apply(embed, maxBatch, s, Enqueue(texts));
    assert t.flushes == s.flushes && t.awake == s.awake && t.buffer == s.buffer + NewEntries(|s.log|, texts);
    hide Apply, Fifo, WokenBy;
    EnqueueFifo(embed, maxBatch, s, texts);
    forall f | 0 <= f < |t.flushes| ensures FlushOk(embed, maxBatch, t, t.flushes[f]) {
      assert FlushOk(embed, maxBatch, s, s.flushes[f]);
      forall i | 0 <= i < |t.flushes[f].batch|
        ensures var id := t.flushes[f].batch[i].id; id in t.holders && t.holders[id] == s.holders[id]
      {
        EntryIds(s, f, i);
        EnqueueHolders(embed, maxBatch, s, texts, t.flushes[f].batch[i].id);
      }
    }
    forall i | 0 <= i < |t.buffer| ensures t.buffer[i].id in t.holders && t.holders[t.buffer[i].id] == Waiting {
      if i < |s.buffer| {
        BufferIds(s, i);
      }
      EnqueueHolders(embed, maxBatch, s, texts, t.buffer[i].id);
    }
  }

  lemma TakeFifo(s: State, batch: seq<Entry>, rest: seq<Entry>)
    requires Fifo(s) && batch + rest == s.buffer
    ensures Taken(s.flushes + [Flush(batch, None, 0, 0)]) + rest == NewEntries(0, s.log)
  {
    var flushes := s.flushes + [Flush(batch, None, 0, 0)];
    assert flushes[..|s.flushes|] == s.flushes;
    assert Taken(flushes) == Taken(s.flushes) + batch;
    hide Taken, NewEntries;
    assert (Taken(s.flushes) + batch) + rest == Taken(s.flushes) + (batch + rest);
  }

  lemma TakeKeeps(embed: string -> Vec, maxBatch: nat, s: State)
    requires Inv(embed, maxBatch, s) && maxBatch > 0
    ensures Inv(embed, maxBatch, Apply(embed, maxBatch, s, Take))
  {
    hide Taken, NewEntries, WokenBy;
    if s.buffer != [] {
      var t := Apply(embed, maxBatch, s, Take);
      var batch, rest := Front(s.buffer, maxBatch), Rest(s.buffer, maxBatch);
      assert t.holders == s.holders && t.awake == s.awake && t.log == s.log;
      assert t.flushes == s.flushes + [Flush(batch, None, 0, 0)] && t.buffer == rest;
      assert batch + rest == s.buffer && 1 <= |batch| <= maxBatch;
      hide Front, Rest, Apply;
      TakeFifo(s, batch, rest);
      assert forall i :: 0 <= i < |batch| ==> batch[i] == s.buffer[i];
      assert forall i :: 0 <= i < |rest| ==> rest[i] == s.buffer[|batch| + i];
      forall f | 0 <= f < |t.flushes| ensures FlushOk(embed, maxBatch, t, t.flushes[f]) {
        if f < |s.flushes| {
          assert FlushOk(embed, maxBatch, s, s.flushes[f]);
        }
      }
      forall id | id in t.awake ensures exists f :: 0 <= f < |t.flushes| && WokenBy(t.flushes[f], id) {
        var f :| 0 <= f < |s.flushes| && WokenBy(s.flushes[f], id);
        assert t.flushes[f] == s.flushes[f];
      }
    }
  }

  lemma ComputeKeeps(embed: string -> Vec, maxBatch: nat, s: State, f: nat, answer: Answer)
    requires Inv(embed, maxBatch, s) && Enabled(embed, s, Compute(f, answer), maxBatch)
    ensures Inv(embed, maxBatch, Apply(embed, maxBatch, s, Compute(f, answer)))
  {
    var t := Apply(embed, maxBatch, s, Compute(f, answer));
    TakenUpdate(s.flushes, f, t.flushes[f]);
    forall g | 0 <= g < |t.flushes| ensures FlushOk(embed, maxBatch, t, t.flushes[g]) {
      assert FlushOk(embed, maxBatch, s, s.flushes[g]);
    }
    AwakeStays(s, t, f);
  }

  /** Changing a flush without taking back wake-ups keeps everyone who is awake accounted for. */
  lemma AwakeStays(s: State, t: State, f: nat)
    requires f < |s.flushes| == |t.flushes| && t.flushes == s.flushes[f := t.flushes[f]]
        && t.flushes[f].batch == s.flushes[f].batch
    requires t.flushes[f].woken >= s.flushes[f].woken
    requires AwakeOk(s)
    ensures forall id :: id in s.awake ==> exists g :: 0 <= g < |t.flushes| && WokenBy(t.flushes[g], id)
  {
    forall id | id in s.awake ensures exists g :: 0 <= g < |t.flushes| && WokenBy(t.flushes[g], id) {
      var g :| 0 <= g < |s.flushes| && WokenBy(s.flushes[g], id);
      var i :| 0 <= i < s.flushes[g].woken && i < |s.flushes[g].batch| && s.flushes[g].batch[i].id == id;
      assert t.flushes[g].batch[i].id == id && i < t.flushes[g].woken;
      assert WokenBy(t.flushes[g], id);
    }
  }

  lemma FillKeeps(embed: string -> Vec, maxBatch: nat, s: State, f: nat)
    requires Inv(embed, maxBatch, s) && Enabled(embed, s, Fill(f), maxBatch)
    ensures Inv(embed, maxBatch, Apply(embed, maxBatch, s, Fill(f)))
  {
    var t := Apply(embed, maxBatch, s, Fill(f));
    var k := s.flushes[f].filled;
    var id := s.flushes[f].batch[k].id;
    TakenUpdate(s.flushes, f, t.flushes[f]);
    forall g | 0 <= g < |t.flushes| ensures FlushOk(embed, maxBatch, t, t.flushes[g]) {
      assert FlushOk(embed, maxBatch, s, s.flushes[g]);
      forall i | 0 <= i < |t.flushes[g].batch| && t.flushes[g].batch[i].id == id ensures g == f && i == k {
        TakenOnce(s, g, i, f, k);
      }
    }
    forall i | 0 <= i < |t.buffer| ensures t.buffer[i].id in t.holders && t.holders[t.buffer[i].id] == Waiting {
      BufferIds(s, i);
      EntryIds(s, f, k);
    }
    AwakeStays(s, t, f);
  }

  lemma WakeKeeps(embed: string -> Vec, maxBatch: nat, s: State, f: nat)
    requires Inv(embed, maxBatch, s) && Enabled(embed, s, Wake(f), maxBatch)
    ensures Inv(embed, maxBatch, Apply(embed, maxBatch, s, Wake(f)))
  {
    var t := Apply(embed, maxBatch, s, Wake(f));
    TakenUpdate(s.flushes, f, t.flushes[f]);
    forall g | 0 <= g < |t.flushes| ensures FlushOk(embed, maxBatch, t, t.flushes[g]) {
      assert FlushOk(embed, maxBatch, s, s.flushes[g]);
    }
    AwakeStays(s, t, f);
    var k := s.flushes[f].woken;
    assert t.flushes[f].batch[k].id == s.flushes[f].batch[k].id;
    assert WokenBy(t.flushes[f], s.flushes[f].batch[k].id);
  }

  lemma {:induction false} RunKeeps(embed: string -> Vec, maxBatch: nat, s: State, actions: seq<Action>)
    requires maxBatch > 0 && Inv(embed, maxBatch, s) && Runs(embed, maxBatch, s, actions)
    ensures Inv(embed, maxBatch, Run(embed, maxBatch, s, actions))
    decreases |actions|
  {
    hide Inv;
    hide Apply;
    if actions != [] {
      match actions[0] {
        case Enqueue(texts) => EnqueueKeeps(embed, maxBatch, s, texts);
        case Take => TakeKeeps(embed, maxBatch, s);
        case Compute(f, answer) => ComputeKeeps(embed, maxBatch, s, f, answer);
        case Fill(f) => FillKeeps(embed, maxBatch, s, f);
        case Wake(f) => WakeKeeps(embed, maxBatch, s, f);
      }
      RunKeeps(embed, maxBatch, Apply(embed, maxBatch, s, actions[0]), actions[1..]);
    }
  }

  /** MAIN: in every interleaving, batches have between one and `maxBatch` entries, the batches in
      order followed by the buffer are the entries in order of arrival (so each is taken once), and a
      caller that is awake holds the vector of its own text or the exception of the one batch that
      took it. */
  lemma RunsAreSafe(embed: string -> Vec, maxBatch: nat, actions: seq<Action>)
    requires maxBatch > 0 && Runs(embed, maxBatch, INITIAL, actions)
    ensures
      var s := Run(embed, maxBatch, INITIAL, actions);
      && Fifo(s)
      && (forall f :: 0 <= f < |s.flushes| ==> 1 <= |s.flushes[f].batch| <= maxBatch)
      && (forall id :: id in s.awake ==> id < |s.log| && id in s.holders && exists f ::
            0 <= f < |s.flushes| && Entry(id, s.log[id]) in s.flushes[f].batch && s.flushes[f].answer.Some?
            && s.holders[id] == Owed(embed, s.flushes[f].answer.value, s.log[id]))
  {
    RunKeeps(embed, maxBatch, INITIAL, actions);
    var s := Run(embed, maxBatch, INITIAL, actions);
    forall id | id in s.awake
      ensures id < |s.log| && id in s.holders && exists f ::
        0 <= f < |s.flushes| && Entry(id, s.log[id]) in s.flushes[f].batch && s.flushes[f].answer.Some?
        && s.holders[id] == Owed(embed, s.flushes[f].answer.value, s.log[id])
    {
      var f :| 0 <= f < |s.flushes| && WokenBy(s.flushes[f], id);
      assert FlushOk(embed, maxBatch, s, s.flushes[f]);
      var i :| 0 <= i < s.flushes[f].woken && i < |s.flushes[f].batch| && s.flushes[f].batch[i].id == id;
      EntryIds(s, f, i);
      assert s.flushes[f].batch[i] == Entry(id, s.log[id]);
    }
  }

  // ---------- Nobody is overtaken ----------

  function Takes(actions: seq<Action>): nat {
    if actions == [] then 0 else (if actions[0].Take? then 1 else 0) + Takes(actions[1..])
  }

  /** MAIN: an entry with `p` entries ahead of it stays in the buffer, moving up by `maxBatch` with
      every flush, and is taken by exactly the `p / maxBatch + 1`-th flush to come, whatever else
      callers and flushes do. */
  lemma {:induction false} TakenInTurn(embed: string -> Vec, maxBatch: nat, s: State, actions: seq<Action>, p: nat)
    requires maxBatch > 0 && Runs(embed, maxBatch, s, actions) && p < |s.buffer|
    ensures
      var t := Run(embed, maxBatch, s, actions);
      var turn := |s.flushes| + p / maxBatch;
      if Takes(actions) * maxBatch <= p
      then p - Takes(actions) * maxBatch < |t.buffer| && t.buffer[p - Takes(actions) * maxBatch] == s.buffer[p]
      else turn < |t.flushes| && s.buffer[p] in t.flushes[turn].batch
    decreases |actions|
  {
    hide Apply, Enabled;
    if actions != [] {
      var a := actions[0];
      var next := Apply(embed, maxBatch, s, a);
      BufferMoves(embed, maxBatch, s, a, p);
      if a.Take? {
        TurnsLeft(p, maxBatch, Takes(actions[1..]));
        if p < maxBatch {
          BatchesStay(embed, maxBatch, next, actions[1..], |s.flushes|);
        } else {
          TakenInTurn(embed, maxBatch, next, actions[1..], p - maxBatch);
        }
      } else {
        TakenInTurn(embed, maxBatch, next, actions[1..], p);
      }
    }
  }

  /** One step: a take takes the entry or moves it up, and nothing else moves it. */
  lemma BufferMoves(embed: string -> Vec, maxBatch: nat, s: State, a: Action, p: nat)
    requires maxBatch > 0 && Enabled(embed, s, a, maxBatch) && p < |s.buffer|
    ensures
      var t := Apply(embed, maxBatch, s, a);
      if !a.Take? then |t.flushes| == |s.flushes| && p < |t.buffer| && t.buffer[p] == s.buffer[p]
      else
        && |t.flushes| == |s.flushes| + 1
        && if p < maxBatch then s.buffer[p] in t.flushes[|s.flushes|].batch
           else p - maxBatch < |t.buffer| && t.buffer[p - maxBatch] == s.buffer[p]
  {
    if a.Take? && p < maxBatch {
      assert Front(s.buffer, maxBatch)[p] == s.buffer[p];
    }
  }

  lemma TurnsLeft(p: nat, d: nat, k: nat)
    requires d > 0
    ensures (1 + k) * d == d + k * d && k * d >= 0
    ensures p < d ==> p / d == 0
    ensures p >= d ==> p / d == 1 + (p - d) / d
  {
    if p >= d {
      var q := p - d;
      assert p == p / d * d + p % d && q == q / d * d + q % d;
      OneApart(p / d, q / d, d, p % d, q % d);
    }
  }

  lemma OneApart(e: nat, f: nat, d: nat, r: nat, t: nat)
    requires r < d && t < d && e * d + r == f * d + t + d
    ensures e == f + 1
  {
    assert (f + 2) * d == f * d + d + d;
    if e <= f {
      MulOrder(e, f, d);
    } else if e >= f + 2 {
      MulOrder(f + 2, e, d);
    }
  }

  lemma MulOrder(a: nat, b: nat, d: nat)
    requires a <= b
    ensures a * d <= b * d
  {
  }

  lemma {:induction false} BatchesStay(embed: string -> Vec, maxBatch: nat, s: State, actions: seq<Action>, f: nat)
    requires Runs(embed, maxBatch, s, actions) && f < |s.flushes|
    ensures
      var t := Run(embed, maxBatch, s, actions);
      f < |t.flushes| && t.flushes[f].batch == s.flushes[f].batch
    decreases |actions|
  {
    if actions != [] {
      BatchesStay(embed, maxBatch, Apply(embed, maxBatch, s, actions[0]), actions[1..], f);
    }
  }

  // ---------- Shutdown ----------

  /** The flush thread: about to test `_stop`, past the test with its batch still to take, flushing a
      batch it has taken, or gone. */
  datatype Thread = AtTest | PastTest | InFlush | Gone

  /** A batcher being shut down: `_stop` is set. `finished` says that `shutdown` has made its own flush. */
  datatype Closing = Closing(s: State, thread: Thread, finished: bool)

  /** Callers and flushes go on with `Work`; the thread and `shutdown` make the takes. `shutdown` gives up
      joining after a while, so its flush may come at any time. */
  datatype CloseStep = Work(a: Action) | Test | ThreadTakes | FlushEnds | FinalFlush

  predicate CloseEnabled(embed: string -> Vec, c: Closing, step: CloseStep, maxBatch: nat) {
    match step
    case Work(a) => !a.Take? && Enabled(embed, c.s, a, maxBatch)
    case Test => c.thread.AtTest?
    case ThreadTakes => c.thread.PastTest?
    case FlushEnds => c.thread.InFlush?
    case FinalFlush => !c.finished
  }

  function CloseApply(embed: string -> Vec, maxBatch: nat, c: Closing, step: CloseStep): Closing
    requires CloseEnabled(embed, c, step, maxBatch)
  {
    match step
    case Work(a) => c.(s := Apply(embed, maxBatch, c.s, a))
    case Test => c.(thread := Gone)
    case ThreadTakes => c.(s := Apply(embed, maxBatch, c.s, Take), thread := InFlush)
    case FlushEnds => c.(thread := AtTest)
    case FinalFlush => c.(s := Apply(embed, maxBatch, c.s, Take), finished := true)
  }

  ghost predicate CloseRuns(embed: string -> Vec, maxBatch: nat, c: Closing, steps: seq<CloseStep>)
    decreases |steps|
  {
    steps == []
      || (CloseEnabled(embed, c, steps[0], maxBatch)
            && CloseRuns(embed, maxBatch, CloseApply(embed, maxBatch, c, steps[0]), steps[1..]))
  }

  ghost function CloseRun(embed: string -> Vec, maxBatch: nat, c: Closing, steps: seq<CloseStep>): Closing
    requires CloseRuns(embed, maxBatch, c, steps)
    decreases |steps|
  {
    if steps == [] then c else CloseRun(embed, maxBatch, CloseApply(embed, maxBatch, c, steps[0]), steps[1..])
  }

  /** The steps as the batcher sees them. */
  function Moves(steps: seq<CloseStep>): seq<Action>
    decreases |steps|
  {
    if steps == [] then []
    else
      match steps[0]
      case Work(a) => [a] + Moves(steps[1..])
      case ThreadTakes => [Take] + Moves(steps[1..])
      case FinalFlush => [Take] + Moves(steps[1..])
      case _ => Moves(steps[1..])
  }

  /** How many batches will still be taken. */
  function TakesLeft(c: Closing): nat {
    (if c.thread.PastTest? then 1 else 0) + if c.finished then 0 else 1
  }

  lemma {:induction false} ClosingIsARun(embed: string -> Vec, maxBatch: nat, c: Closing, steps: seq<CloseStep>)
    requires CloseRuns(embed, maxBatch, c, steps)
    ensures
      var t := CloseRun(embed, maxBatch, c, steps);
      && Runs(embed, maxBatch, c.s, Moves(steps)) && t.s == Run(embed, maxBatch, c.s, Moves(steps))
      && TakesLeft(c) == Takes(Moves(steps)) + TakesLeft(t)
    decreases |steps|
  {
    hide Apply, Enabled;
    if steps != [] {
      ClosingIsARun(embed, maxBatch, CloseApply(embed, maxBatch, c, steps[0]), steps[1..]);
      var rest := Moves(steps[1..]);
      if steps[0].Work? {
        assert Moves(steps) == [steps[0].a] + rest && ([steps[0].a] + rest)[1..] == rest;
      } else if steps[0].ThreadTakes? || steps[0].FinalFlush? {
        assert Moves(steps) == [Take] + rest && ([Take] + rest)[1..] == rest;
        assert Enabled(embed, c.s, Take, maxBatch) by { TakeEnabled(embed, c.s, maxBatch); }
      }
    }
  }

  lemma TakeEnabled(embed: string -> Vec, s: State, maxBatch: nat)
    ensures Enabled(embed, s, Take, maxBatch)
  {
  }

  /** Every entry buffered in `s` is in a batch taken since. */
  ghost predicate AllTaken(s: State, t: State) {
    forall i :: 0 <= i < |s.buffer| ==> TakenSince(s, t, s.buffer[i])
  }

  ghost predicate TakenSince(s: State, t: State, e: Entry) {
    exists f :: |s.flushes| <= f < |t.flushes| && e in t.flushes[f].batch
  }

  /** MAIN: once `shutdown` has flushed and the thread is gone, every entry buffered when `_stop` was set has
      been taken if and only if there were at most `maxBatch` of them, or at most twice as many when the
      thread was then past its test and had not taken its batch. */
  lemma ShutdownTakesAllIff(embed: string -> Vec, maxBatch: nat, c: Closing, steps: seq<CloseStep>)
    requires maxBatch > 0 && Inv(embed, maxBatch, c.s) && !c.finished && CloseRuns(embed, maxBatch, c, steps)
    requires CloseRun(embed, maxBatch, c, steps).finished && CloseRun(embed, maxBatch, c, steps).thread.Gone?
    ensures AllTaken(c.s, CloseRun(embed, maxBatch, c, steps).s)
            <==> |c.s.buffer| <= if c.thread.PastTest? then 2 * maxBatch else maxBatch
  {
    hide Inv, Runs, Apply, CloseRuns, CloseRun;
    var t, moves := CloseRun(embed, maxBatch, c, steps).s, Moves(steps);
    ClosingIsARun(embed, maxBatch, c, steps);
    RunKeeps(embed, maxBatch, c.s, moves);
    InvIsFifo(embed, maxBatch, t);
    var room := if c.thread.PastTest? then 2 * maxBatch else maxBatch;
    assert Takes(moves) * maxBatch == room;
    if |c.s.buffer| <= room {
      forall i | 0 <= i < |c.s.buffer| ensures TakenSince(c.s, t, c.s.buffer[i]) {
        TakenInTurn(embed, maxBatch, c.s, moves, i);
        NotNegative(i, maxBatch);
        var f: nat := |c.s.flushes| + i / maxBatch;
        assert f < |t.flushes| && c.s.buffer[i] in t.flushes[f].batch;
      }
    } else {
      TakenInTurn(embed, maxBatch, c.s, moves, room);
      assert room - Takes(moves) * maxBatch == 0;
      assert 0 < |t.buffer| && t.buffer[0] == c.s.buffer[room];
      forall f | |c.s.flushes| <= f < |t.flushes| ensures c.s.buffer[room] !in t.flushes[f].batch {
        StillBuffered(t, 0, f);
      }
      assert !TakenSince(c.s, t, c.s.buffer[room]);
    }
  }

  lemma InvIsFifo(embed: string -> Vec, maxBatch: nat, s: State)
    requires Inv(embed, maxBatch, s)
    ensures Fifo(s)
  {
  }

  lemma NotNegative(p: nat, d: nat)
    requires d > 0
    ensures p / d >= 0
  {
  }

  /** What is in the buffer is in no batch. */
  lemma StillBuffered(s: State, i: nat, f: nat)
    requires Fifo(s) && i < |s.buffer| && f < |s.flushes|
    ensures s.buffer[i] !in s.flushes[f].batch
  {
    BufferIds(s, i);
    forall j | 0 <= j < |s.flushes[f].batch| ensures s.flushes[f].batch[j] != s.buffer[i] {
      EntryIds(s, f, j);
    }
  }

  /** Two callers, batches of one: when the thread is at its test, the second caller is left behind. */
  lemma OneLeftBehind(embed: string -> Vec, a: string, b: string)
    ensures
      var s := Apply(embed, 1, Apply(embed, 1, INITIAL, Enqueue([a])), Enqueue([b]));
      var c, steps := Closing(s, AtTest, false), [Test, FinalFlush];
      && s.buffer == [Entry(0, a), Entry(1, b)] && CloseRuns(embed, 1, c, steps)
      && CloseRun(embed, 1, c, steps).thread.Gone? && CloseRun(embed, 1, c, steps).finished
      && CloseRun(embed, 1, c, steps).s.buffer == [Entry(1, b)]
  {
    var s := Apply(embed, 1, Apply(embed, 1, INITIAL, Enqueue([a])), Enqueue([b]));
    var c, steps := Closing(s, AtTest, false), [Test, FinalFlush];
    assert steps[1..] == [FinalFlush] && steps[1..][1..] == [];
    var mid := CloseApply(embed, 1, c, Test);
    assert CloseRun(embed, 1, mid, [FinalFlush]) == CloseRun(embed, 1, CloseApply(embed, 1, mid, FinalFlush), []);
  }

  // ---------- The object ----------

  function IdsOf(batch: seq<Entry>): set<nat> {
    set e | e in batch :: e.id
  }

  class Batcher {
    const embed: string -> Vec
    const maxBatch: nat
    var buffer: seq<Entry>
    var nextId: nat
    var holders: map<nat, Holder>
    var awake: set<nat>
    var totalBatches: nat
    var totalItems: nat

    constructor (embed: string -> Vec, maxBatch: nat)
      ensures this.embed == embed && this.maxBatch == maxBatch && buffer == [] && nextId == 0 && holders == map[]
          && awake == {}
    {
      this.embed, this.maxBatch := embed, maxBatch;
      buffer, nextId, holders, awake, totalBatches, totalItems := [], 0, map[], {}, 0, 0;
    }

    /** The locked part of `embed` and `embed_batch`. */
    method Append(texts: seq<string>)
      modifies this`buffer, this`nextId, this`holders
      ensures buffer == old(buffer) + NewEntries(old(nextId), texts) && nextId == old(nextId) + |texts|
      ensures holders == old(holders) + FreshHolders(NewEntries(old(nextId), texts))
    {
      hide FreshHolders;
      ghost var entries := NewEntries(nextId, texts);
      FreshNone();
      assert entries[..0] == [];
      var k := 0;
      while k < |texts|
        invariant 0 <= k <= |texts|
        invariant buffer == old(buffer) + entries[..k] && nextId == old(nextId) + k
        invariant holders == old(holders) + FreshHolders(entries[..k])
      {
        FreshSnoc(entries[..k], entries[k]);
        assert entries[..k + 1] == entries[..k] + [entries[k]];
        buffer := buffer + [Entry(nextId, texts[k])];
        holders := holders[nextId := Waiting];
        nextId := nextId + 1;
        k := k + 1;
      }
      assert entries[..k] == entries;
    }

    /** `_flush`, given how the model answers: its vectors go to the callers by position. */
    method FlushOnce(answer: Answer)
      requires maxBatch > 0 && Answers(embed, Front(buffer, maxBatch), answer)
      modifies this`buffer, this`holders, this`awake, this`totalBatches, this`totalItems
      ensures buffer == Rest(old(buffer), maxBatch)
      ensures
        var batch := Front(old(buffer), maxBatch);
        && holders == Published(embed, answer, old(holders), batch, |batch|)
        && awake == old(awake) + IdsOf(batch)
        && (totalBatches, totalItems) == if batch == [] || answer.Exception? then (old(totalBatches), old(totalItems))
                                         else (old(totalBatches) + 1, old(totalItems) + |batch|)
    {
      hide Published, IdsOf;
      PublishedNone(embed, answer, holders, Front(buffer, maxBatch));
      if buffer == [] { return; }
      var batch := Front(buffer, maxBatch);
      buffer := Rest(buffer, maxBatch);
      if answer.Vectors? {
        totalBatches := totalBatches + 1;
        totalItems := totalItems + |batch|;
      }
      var i := 0;
      while i < |batch|
        modifies this`holders, this`awake
        invariant 0 <= i <= |batch|
        invariant holders == Published(embed, answer, old(holders), batch, i)
        invariant awake == old(awake) + IdsOf(batch[..i])
      {
        PublishedOne(embed, answer, old(holders), batch, i);
        holders := holders[batch[i].id := if answer.Vectors? then Vector(answer.vecs[i]) else Raised(answer.error)];
        awake := awake + {batch[i].id};
        i := i + 1;
      }
      assert batch[..i] == batch;
    }
  }

  lemma PublishedNone(embed: string -> Vec, answer: Answer, holders: map<nat, Holder>, batch: seq<Entry>)
    ensures Published(embed, answer, holders, batch, 0) == holders && IdsOf(batch[..0]) == {}
    ensures batch == [] ==> IdsOf(batch) == {} && Published(embed, answer, holders, batch, |batch|) == holders
  {
  }

  lemma PublishedOne(embed: string -> Vec, answer: Answer, holders: map<nat, Holder>, batch: seq<Entry>, k: nat)
    requires k < |batch|
    ensures Published(embed, answer, holders, batch, k + 1) ==
        Published(embed, answer, holders, batch, k)[batch[k].id := Owed(embed, answer, batch[k].text)]
    ensures IdsOf(batch[..k + 1]) == IdsOf(batch[..k]) + {batch[k].id}
  {
    assert batch[..k + 1] == batch[..k] + [batch[k]];
  }

  /** The holders after the first `k` entries of a batch have been filled. */
  function Published(
    embed: string -> Vec, answer: Answer, holders: map<nat, Holder>, batch: seq<Entry>, k: nat): map<nat, Holder>
    requires k <= |batch|
  {
    if k == 0 then holders
    else Published(embed, answer, holders, batch, k - 1)[batch[k - 1].id := Owed(embed, answer, batch[k - 1].text)]
  }
}
