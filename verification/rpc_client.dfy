/** The JSON-RPC client of `server/sidecar.ts` over the pipe to `retrieval/sidecar.py`: calls are
    written in order, answers come back as lines of a text that is delivered in arbitrary pieces. */
module RpcClient {
  import opened Options
  import opened Text

  datatype Call = Call(name: string, params: string)
  datatype Reply = Success(result: string) | Failure(code: int, message: string)
  datatype Response = Response(id: nat, reply: Reply)
  datatype Request = Request(id: nat, call: Call)

  /** What a promise is settled with, and one call of `resolve` or `reject` of the promise of `id`. */
  datatype Outcome = Answered(reply: Reply) | WriteFailed
  datatype Attempt = Attempt(id: nat, outcome: Outcome)

  /** What a line is to the client: an answer; `null`, whose `id` cannot be asked for; or anything
      else, JSON or not, which answers nothing. */
  datatype Message = Answer(response: Response) | JsonNull | Other

  /** The server's `json.dumps` on responses and the client's `JSON.parse` on lines. */
  datatype Json = Json(stringify: Response -> string, parse: string -> Message)

  predicate LineText(s: string) {
    s != "" && Trimmed(JsSpace, s) && '\n' !in s
  }

  ghost predicate Lawful(json: Json) {
    forall r: Response :: LineText(json.stringify(r)) && json.parse(json.stringify(r)) == Answer(r)
  }

  /** The client: calls made so far in order of id, ids waiting for an answer, every attempt to
      settle a promise in order, the text kept back, and whether the read loop still runs. */
  datatype Client = Client(calls: seq<Call>, pending: set<nat>, attempts: seq<Attempt>, buf: string, reading: bool)

  /** The attempts to settle one promise; the first is the one that counts. */
  function Attempts(log: seq<Attempt>, id: nat): seq<Outcome> {
    if log == [] then []
    else
      var last := log[|log| - 1];
      Attempts(log[..|log| - 1], id) + if last.id == id then [last.outcome] else []
  }

  function HandleResponse(c: Client, r: Response): Client {
    if r.id !in c.pending then c
    else c.(pending := c.pending - {r.id}, attempts := c.attempts + [Attempt(r.id, Answered(r.reply))])
  }

  function HandleLine(json: Json, c: Client, line: string): Client {
    if line == "" then c
    else
      match json.parse(line)
      case Other => c
      case JsonNull => c.(reading := false)
      case Answer(r) => HandleResponse(c, r)
  }

  /** The handler of a failed write rejects whether or not the call is still pending. */
  function HandleWriteError(c: Client, id: nat): Client {
    c.(pending := c.pending - {id}, attempts := c.attempts + [Attempt(id, WriteFailed)])
  }

  /** Every complete line is taken off the front of the buffer, until one ends the read loop. */
  function Drain(json: Json, c: Client): Client
    decreases |c.buf|
  {
    var k := FirstNewline(c.buf);
    if !c.reading || k == -1 then c
    else
      var next := HandleLine(json, c.(buf := c.buf[k + 1..]), Trim(JsSpace, c.buf[..k]));
      Drain(json, next)
  }

  lemma DrainUnfold(json: Json, c: Client)
    ensures
      var k := FirstNewline(c.buf);
      Drain(json, c) ==
        if !c.reading || k == -1 then c
        else Drain(json, HandleLine(json, c.(buf := c.buf[k + 1..]), Trim(JsSpace, c.buf[..k])))
  {
    hide HandleLine;
  }

  class Sidecar {
    const json: Json
    var calls: seq<Call>
    var pending: set<nat>
    var attempts: seq<Attempt>
    var buf: string
    var reading: bool

    ghost function State(): Client
      reads this
    {
      Client(calls, pending, attempts, buf, reading)
    }

    constructor (json: Json)
      ensures this.json == json && State() == Client([], {}, [], "", true)
    {
      this.json := json;
      calls, pending, attempts, buf, reading := [], {}, [], "", true;
    }

    /** `call` up to queueing the write; the id is the number of calls before it. */
    method Begin(call: Call) returns (req: Request)
      modifies this
      ensures req == Request(|old(calls)|, call)
      ensures State() == old(State()).(calls := old(calls) + [call], pending := old(pending) + {|old(calls)|})
    {
      var id := |calls|;
      calls := calls + [call];
      pending := pending + {id};
      return Request(id, call);
    }

    method OnWriteError(id: nat)
      modifies this
      ensures State() == HandleWriteError(old(State()), id)
    {
      pending := pending - {id};
      attempts := attempts + [Attempt(id, WriteFailed)];
    }

    method OnLine(line: string)
      modifies this
      ensures State() == HandleLine(json, old(State()), line) && buf == old(buf)
    {
      if line == "" { return; }
      match json.parse(line)
      case Other =>
      case JsonNull => reading := false;
      case Answer(r) =>
        if r.id in pending {
          pending := pending - {r.id};
          attempts := attempts + [Attempt(r.id, Answered(r.reply))];
        }
    }

    /** One turn of `readLoop`. */
    method OnChunk(piece: string)
      requires reading
      modifies this
      ensures State() == Drain(json, old(State()).(buf := old(buf) + piece))
    {
      hide HandleLine, Drain;
      buf := buf + piece;
      ghost var start := State();
      var idx := FirstNewline(buf);
      while reading && idx != -1
        invariant idx == FirstNewline(buf)
        invariant Drain(json, State()) == Drain(json, start)
        decreases |buf|
      {
        DrainUnfold(json, State());
        var line := Trim(JsSpace, buf[..idx]);
        buf := buf[idx + 1..];
        OnLine(line);
        idx := FirstNewline(buf);
      }
      DrainUnfold(json, State());
    }
  }

  // ---------- The protocol ----------

  /** `unsent` are writes whose promise is not settled, in order; `arrived` says that the bytes of the
      first of them are with the server already. `inbox` are requests the server has not answered,
      `wire` is what it wrote and the client has not received, `computed` what it answered. */
  datatype State = State(client: Client, unsent: seq<Request>, arrived: bool, inbox: seq<Request>, wire: string,
                         computed: map<nat, (Call, Reply)>)

  const INITIAL: State := State(Client([], {}, [], "", true), [], false, [], "", map[])

  /** The bytes of a write arrive before its promise settles, so an answer can come in between, and a
      write can fail after them. `Stray` is a line of the server that answers nothing new. */
  datatype Action =
    | MakeCall(call: Call)
    | Arrive
    | WriteOk
    | WriteFail
    | Serve(reply: Reply)
    | Stray(line: string)
    | Deliver(n: nat)

  /** What the client makes of a line. */
  function Parsed(json: Json, line: string): Message {
    var t := Trim(JsSpace, line);
    if t == "" then Other else json.parse(t)
  }

  predicate Enabled(json: Json, s: State, a: Action) {
    match a
    case MakeCall(_) => true
    case Arrive => s.unsent != [] && !s.arrived
    case WriteOk => s.unsent != [] && s.arrived
    case WriteFail => s.unsent != []
    case Serve(_) => s.inbox != []
    case Stray(line) => '\n' !in line && (Parsed(json, line).Answer? ==> Parsed(json, line).response.id in s.computed)
    case Deliver(n) => s.client.reading && n <= |s.wire|
  }

  function Apply(json: Json, s: State, a: Action): State
    requires Enabled(json, s, a)
  {
    match a
    case MakeCall(call) =>
      var id := |s.client.calls|;
      s.(client := s.client.(calls := s.client.calls + [call], pending := s.client.pending + {id}),
         unsent := s.unsent + [Request(id, call)])
    case Arrive => s.(arrived := true, inbox := s.inbox + [s.unsent[0]])
    case WriteOk => s.(unsent := s.unsent[1..], arrived := false)
    case WriteFail =>
      s.(unsent := s.unsent[1..], arrived := false, client := HandleWriteError(s.client, s.unsent[0].id))
    case Serve(reply) =>
      var req := s.inbox[0];
      s.(inbox := s.inbox[1..], wire := s.wire + json.stringify(Response(req.id, reply)) + "\n",
         computed := s.computed[req.id := (req.call, reply)])
    case Stray(line) => s.(wire := s.wire + line + "\n")
    case Deliver(n) =>
      s.(client := Drain(json, s.client.(buf := s.client.buf + s.wire[..n])), wire := s.wire[n..])
  }

  ghost predicate Runs(json: Json, s: State, actions: seq<Action>)
    decreases |actions|
  {
    actions == [] || (Enabled(json, s, actions[0]) && Runs(json, Apply(json, s, actions[0]), actions[1..]))
  }

  ghost function Run(json: Json, s: State, actions: seq<Action>): State
    requires Runs(json, s, actions)
    decreases |actions|
  {
    if actions == [] then s else Run(json, Apply(json, s, actions[0]), actions[1..])
  }

  // ---------- Framing ----------

  function Lines(lines: seq<string>): string {
    if lines == [] then "" else lines[0] + "\n" + Lines(lines[1..])
  }

  predicate OneLine(line: string) {
    '\n' !in line
  }

  function HandleLines(json: Json, c: Client, lines: seq<string>): Client
    decreases |lines|
  {
    if lines == [] || !c.reading then c
    else HandleLines(json, HandleLine(json, c, Trim(JsSpace, lines[0])), lines[1..])
  }

  lemma {:induction false} LinesSnoc(lines: seq<string>, line: string)
    ensures Lines(lines + [line]) == Lines(lines) + line + "\n"
  {
    if lines == [] {
      assert (lines + [line])[1..] == [];
      assert Lines([line]) == line + "\n" + Lines([]);
    } else {
      assert (lines + [line])[1..] == lines[1..] + [line];
      LinesSnoc(lines[1..], line);
    }
  }

  lemma FirstLineEnds(line: string, rest: string, buf: string, wire: string)
    requires '\n' !in line && buf + wire == line + "\n" + rest
    ensures FirstNewline(buf) != -1 ==>
        FirstNewline(buf) == |line| && buf[..|line|] == line && buf[|line| + 1..] + wire == rest
  {
    var k := FirstNewline(buf);
    if k != -1 {
      var all := buf + wire;
      assert all[|line|] == '\n' && all[k] == '\n';
      forall i | 0 <= i < |line| ensures all[i] != '\n' { assert all[i] == line[i]; }
      forall i | 0 <= i < k ensures all[i] != '\n' { assert all[i] == buf[i]; }
      assert buf[..k] == all[..k] == line;
      assert buf[k + 1..] + wire == all[k + 1..];
    }
  }

  lemma BufUntouched(json: Json, c: Client, line: string, b: string)
    ensures HandleLine(json, c.(buf := b), line) == HandleLine(json, c, line).(buf := b)
  {
  }

  lemma {:induction false} BufIrrelevant(json: Json, c: Client, lines: seq<string>, b: string)
    ensures HandleLines(json, c.(buf := b), lines) == HandleLines(json, c, lines).(buf := b)
    decreases |lines|
  {
    hide HandleLine;
    if lines != [] && c.reading {
      BufUntouched(json, c, Trim(JsSpace, lines[0]), b);
      BufIrrelevant(json, HandleLine(json, c, Trim(JsSpace, lines[0])), lines[1..], b);
    }
  }

  /** No line in front of the last ends the read loop. */
  ghost predicate HeardAll(json: Json, lines: seq<string>) {
    forall i :: 0 <= i < |lines| - 1 ==> Parsed(json, lines[i]) != JsonNull
  }

  lemma LineReads(json: Json, c: Client, line: string)
    ensures HandleLine(json, c, Trim(JsSpace, line)).reading <==> c.reading && Parsed(json, line) != JsonNull
  {
  }

  /** Wherever the text is cut, the client has handled a prefix of the lines, which goes as far as the
      first `null`, and what it holds back with what is still on the wire is the text of the others. */
  lemma {:induction false} DrainHandlesPrefix(json: Json, c: Client, wire: string, lines: seq<string>) returns (j: nat)
    requires c.buf + wire == Lines(lines) && forall i :: 0 <= i < |lines| ==> OneLine(lines[i])
    ensures j <= |lines|
    ensures Drain(json, c) == HandleLines(json, c, lines[..j]).(buf := Drain(json, c).buf)
    ensures Drain(json, c).buf + wire == Lines(lines[j..])
    ensures HeardAll(json, lines[..j]) && (!c.reading ==> j == 0)
    decreases |c.buf|
  {
    hide HandleLine, Parsed;
    var k := FirstNewline(c.buf);
    if k == -1 || !c.reading {
      j := 0;
      assert lines[..0] == [] && lines[0..] == lines;
    } else {
      assert |c.buf + wire| == |c.buf| + |wire| && c.buf != "";
      assert lines != [];
      assert OneLine(lines[0]);
      FirstLineEnds(lines[0], Lines(lines[1..]), c.buf, wire);
      var rest, line := c.buf[k + 1..], Trim(JsSpace, lines[0]);
      var next := HandleLine(json, c.(buf := rest), line);
      BufUntouched(json, c, line, rest);
      LineReads(json, c, lines[0]);
      var i := DrainHandlesPrefix(json, next, wire, lines[1..]);
      j := i + 1;
      assert lines[..j][0] == lines[0] && lines[..j][1..] == lines[1..][..i];
      assert lines[j..] == lines[1..][i..];
      BufIrrelevant(json, HandleLine(json, c, line), lines[1..][..i], rest);
      forall m | 0 <= m < j - 1 ensures Parsed(json, lines[..j][m]) != JsonNull {
        if m > 0 { assert lines[..j][m] == lines[1..][..i][m - 1]; }
      }
    }
  }

  lemma {:induction false} DrainLeavesNoLine(json: Json, c: Client)
    ensures Drain(json, c).reading ==> '\n' !in Drain(json, c).buf
    decreases |c.buf|
  {
    hide HandleLine;
    var k := FirstNewline(c.buf);
    if k != -1 && c.reading {
      BufUntouched(json, c, Trim(JsSpace, c.buf[..k]), c.buf[k + 1..]);
      DrainLeavesNoLine(json, HandleLine(json, c.(buf := c.buf[k + 1..]), Trim(JsSpace, c.buf[..k])));
    }
  }

  // ---------- Which line answers a call ----------

  /** The reply of the first line that answers `id`. */
  function FirstAnswer(json: Json, lines: seq<string>, id: nat): Option<Reply> {
    if lines == [] then None
    else
      match Parsed(json, lines[0])
      case Answer(r) => if r.id == id then Some(r.reply) else FirstAnswer(json, lines[1..], id)
      case _ => FirstAnswer(json, lines[1..], id)
  }

  /** The lines in front of the first `null`. */
  function Heard(json: Json, lines: seq<string>): seq<string> {
    if lines == [] || Parsed(json, lines[0]) == JsonNull then [] else [lines[0]] + Heard(json, lines[1..])
  }

  lemma {:induction false} HeardIsAll(json: Json, lines: seq<string>, id: nat)
    requires HeardAll(json, lines)
    ensures FirstAnswer(json, Heard(json, lines), id) == FirstAnswer(json, lines, id)
    decreases |lines|
  {
    hide Parsed;
    if lines != [] {
      var rest := lines[1..];
      forall i | 0 <= i < |rest| - 1 ensures Parsed(json, rest[i]) != JsonNull { assert rest[i] == lines[i + 1]; }
      HeardIsAll(json, rest, id);
      if Parsed(json, lines[0]) == JsonNull {
        assert rest == [];
      } else {
        assert Heard(json, lines)[1..] == Heard(json, rest);
      }
    }
  }

  lemma {:induction false} FirstAnswerAppend(json: Json, a: seq<string>, b: seq<string>, id: nat)
    ensures FirstAnswer(json, a + b, id) ==
            if FirstAnswer(json, a, id).Some? then FirstAnswer(json, a, id) else FirstAnswer(json, b, id)
  {
    hide Parsed;
    if a == [] {
      assert a + b == b;
    } else {
      assert (a + b)[1..] == a[1..] + b;
      FirstAnswerAppend(json, a[1..], b, id);
    }
  }

  lemma FirstAnswerSnoc(json: Json, lines: seq<string>, line: string, id: nat)
    ensures FirstAnswer(json, lines + [line], id) ==
            if FirstAnswer(json, lines, id).Some? then FirstAnswer(json, lines, id)
            else
              var p := Parsed(json, line);
              if p.Answer? && p.response.id == id then Some(p.response.reply) else None
  {
    hide Parsed;
    FirstAnswerAppend(json, lines, [line], id);
    assert [line][1..] == [];
  }

  lemma AttemptsSnoc(log: seq<Attempt>, a: Attempt, id: nat)
    ensures Attempts(log + [a], id) == Attempts(log, id) + if a.id == id then [a.outcome] else []
  {
    assert (log + [a])[..|log|] == log;
  }

  lemma LineOnOne(json: Json, c: Client, line: string, id: nat)
    ensures
      var h := HandleLine(json, c, Trim(JsSpace, line));
      var p := Parsed(json, line);
      var mine := id in c.pending && p.Answer? && p.response.id == id;
      && h.calls == c.calls
      && (id in h.pending <==> id in c.pending && !mine)
      && Attempts(h.attempts, id) == Attempts(c.attempts, id) + if mine then [Answered(p.response.reply)] else []
  {
    var p := Parsed(json, line);
    if p.Answer? {
      AttemptsSnoc(c.attempts, Attempt(p.response.id, Answered(p.response.reply)), id);
    }
  }

  /** Of any lines whatever in front of a `null`, the first that answers a pending call settles it, once
      and with its own reply; lines that are no answers, answer nothing pending or answer again change
      nothing, and a `null` ends the reading. */
  lemma {:induction false} FirstAnswerWins(json: Json, c: Client, lines: seq<string>, id: nat)
    requires c.reading
    ensures
      var h := HandleLines(json, c, lines);
      var heard := Heard(json, lines);
      var answer := if id in c.pending then FirstAnswer(json, heard, id) else None;
      && h.calls == c.calls
      && (h.reading <==> heard == lines)
      && (id in h.pending <==> id in c.pending && answer.None?)
      && Attempts(h.attempts, id) == Attempts(c.attempts, id) + if answer.Some? then [Answered(answer.value)] else []
    decreases |lines|
  {
    hide HandleLine, Parsed, Attempts;
    if lines != [] {
      var next, rest := HandleLine(json, c, Trim(JsSpace, lines[0])), lines[1..];
      LineOnOne(json, c, lines[0], id);
      LineReads(json, c, lines[0]);
      if next.reading {
        FirstAnswerWins(json, next, rest, id);
        assert Heard(json, lines)[1..] == Heard(json, rest);
        assert lines == [lines[0]] + rest;
      } else {
        assert Heard(json, lines) == [];
      }
    }
  }

  // ---------- Answers reach their own calls ----------

  /** The first id whose bytes the server does not have. */
  function Sent(s: State): int {
    |s.client.calls| - |s.unsent| + if s.arrived then 1 else 0
  }

  /** The queued writes are those of the last calls, in order. */
  ghost predicate QueueOk(s: State) {
    && |s.unsent| <= |s.client.calls|
    && (s.arrived ==> s.unsent != [])
    && forall i :: 0 <= i < |s.unsent| ==>
         var id := |s.client.calls| - |s.unsent| + i;
         s.unsent[i] == Request(id, s.client.calls[id])
  }

  ghost predicate RequestOk(s: State, r: Request) {
    r.id < |s.client.calls| && r.id < Sent(s) && r.call == s.client.calls[r.id] && r.id !in s.computed
  }

  /** The server reads in order of id and computes answers for calls that were made. */
  ghost predicate ServerOk(s: State) {
    && (forall i :: 0 <= i < |s.inbox| ==> RequestOk(s, s.inbox[i]))
    && (forall i, j :: 0 <= i < j < |s.inbox| ==> s.inbox[i].id < s.inbox[j].id)
    && (forall id :: id in s.computed ==>
          id < |s.client.calls| && id < Sent(s) && s.computed[id].0 == s.client.calls[id])
  }

  /** How far the call `id` is; `lines` are the lines written and not yet handled. */
  ghost predicate CallOk(json: Json, s: State, lines: seq<string>, id: nat) {
    var tries := Attempts(s.client.attempts, id);
    && (id in s.client.pending <==> id < |s.client.calls| && tries == [])
    && (id >= |s.client.calls| ==> tries == [])
    && (tries != [] && tries[0].Answered? ==> id in s.computed && s.computed[id].1 == tries[0].reply)
    && (|tries| > 1 ==> |tries| == 2 && tries[0].Answered? && tries[1] == WriteFailed)
    && (id >= |s.client.calls| - |s.unsent| ==> WriteFailed !in tries)
    && (FirstAnswer(json, lines, id).Some? ==> id in s.computed)
    && (id in s.client.pending && id in s.computed ==> FirstAnswer(json, lines, id) == Some(s.computed[id].1))
    && (id in s.client.pending && id !in s.computed ==> id >= Sent(s) || exists q :: q in s.inbox && q.id == id)
  }

  ghost predicate InvWith(json: Json, s: State, lines: seq<string>) {
    && QueueOk(s)
    && ServerOk(s)
    && (forall id: nat :: CallOk(json, s, lines, id))
    && (forall i :: 0 <= i < |lines| ==> OneLine(lines[i]))
    && s.client.buf + s.wire == Lines(lines)
    && (s.client.reading ==> '\n' !in s.client.buf)
  }

  ghost predicate Inv(json: Json, s: State) {
    exists lines :: InvWith(json, s, lines)
  }

  lemma CallKeeps(json: Json, s: State, call: Call, lines: seq<string>)
    requires InvWith(json, s, lines)
    ensures InvWith(json, Apply(json, s, MakeCall(call)), lines)
  {
    hide Lines, Attempts, FirstAnswer;
    var t := Apply(json, s, MakeCall(call));
    forall i | 0 <= i < |t.inbox| ensures RequestOk(t, t.inbox[i]) { assert RequestOk(s, s.inbox[i]); }
    forall id: nat ensures CallOk(json, t, lines, id) { assert CallOk(json, s, lines, id); }
  }

  /** The request at the pipe is the one of the first id whose write is not settled. */
  lemma AtThePipe(s: State)
    requires QueueOk(s) && s.unsent != []
    ensures
      var id := |s.client.calls| - |s.unsent|;
      s.unsent[0] == Request(id, s.client.calls[id])
  {
  }

  lemma ArriveKeeps(json: Json, s: State, lines: seq<string>)
    requires Enabled(json, s, Arrive) && InvWith(json, s, lines)
    ensures InvWith(json, Apply(json, s, Arrive), lines)
  {
    hide Lines, CallOk;
    var t := Apply(json, s, Arrive);
    AtThePipe(s);
    forall i | 0 <= i < |t.inbox| ensures RequestOk(t, t.inbox[i]) {
      if i < |s.inbox| { assert RequestOk(s, s.inbox[i]); }
    }
    forall x: nat ensures CallOk(json, t, lines, x) { ArriveKeepsCall(json, s, lines, x); }
  }

  lemma ArriveKeepsCall(json: Json, s: State, lines: seq<string>, x: nat)
    requires Enabled(json, s, Arrive) && QueueOk(s) && CallOk(json, s, lines, x)
    ensures CallOk(json, Apply(json, s, Arrive), lines, x)
  {
    hide Attempts, FirstAnswer;
    AtThePipe(s);
    var t := Apply(json, s, Arrive);
    assert s.unsent[0] in t.inbox && forall q :: q in s.inbox ==> q in t.inbox;
  }

  lemma WriteOkKeeps(json: Json, s: State, lines: seq<string>)
    requires Enabled(json, s, WriteOk) && InvWith(json, s, lines)
    ensures InvWith(json, Apply(json, s, WriteOk), lines)
  {
    hide Lines, Attempts, FirstAnswer;
    var t := Apply(json, s, WriteOk);
    forall i | 0 <= i < |t.inbox| ensures RequestOk(t, t.inbox[i]) { assert RequestOk(s, s.inbox[i]); }
    forall x: nat ensures CallOk(json, t, lines, x) { assert CallOk(json, s, lines, x); }
  }

  lemma WriteFailKeeps(json: Json, s: State, lines: seq<string>)
    requires Enabled(json, s, WriteFail) && InvWith(json, s, lines)
    ensures InvWith(json, Apply(json, s, WriteFail), lines)
  {
    hide Lines, CallOk;
    var t := Apply(json, s, WriteFail);
    forall i | 0 <= i < |t.inbox| ensures RequestOk(t, t.inbox[i]) { assert RequestOk(s, s.inbox[i]); }
    forall x: nat ensures CallOk(json, t, lines, x) { WriteFailKeepsCall(json, s, lines, x); }
  }

  lemma WriteFailKeepsCall(json: Json, s: State, lines: seq<string>, x: nat)
    requires Enabled(json, s, WriteFail) && QueueOk(s) && CallOk(json, s, lines, x)
    ensures CallOk(json, Apply(json, s, WriteFail), lines, x)
  {
    hide Attempts, FirstAnswer;
    AtThePipe(s);
    AttemptsSnoc(s.client.attempts, Attempt(s.unsent[0].id, WriteFailed), x);
  }

  lemma ServeKeeps(json: Json, s: State, reply: Reply, lines: seq<string>)
    requires Lawful(json) && s.inbox != [] && InvWith(json, s, lines)
    ensures InvWith(json, Apply(json, s, Serve(reply)), lines + [json.stringify(Response(s.inbox[0].id, reply))])
  {
    hide Lines, Lawful, CallOk;
    var t := Apply(json, s, Serve(reply));
    var req := s.inbox[0];
    var line := json.stringify(Response(req.id, reply));
    StringifyParses(json, Response(req.id, reply));
    assert RequestOk(s, req);
    forall i | 0 <= i < |t.inbox| ensures RequestOk(t, t.inbox[i]) { assert RequestOk(s, s.inbox[i + 1]); }
    assert ServerOk(t);
    forall x: nat ensures CallOk(json, t, lines + [line], x) {
      ServeKeepsCall(json, s, reply, lines, line, x);
    }
    WireGrows(s, lines, line);
  }

  lemma ServeKeepsCall(json: Json, s: State, reply: Reply, lines: seq<string>, line: string, x: nat)
    requires s.inbox != [] && Parsed(json, line) == Answer(Response(s.inbox[0].id, reply))
    requires ServerOk(s) && CallOk(json, s, lines, x) && CallOk(json, s, lines, s.inbox[0].id)
    ensures CallOk(json, Apply(json, s, Serve(reply)), lines + [line], x)
  {
    hide Attempts, FirstAnswer, Parsed;
    var req := s.inbox[0];
    assert RequestOk(s, req);
    FirstAnswerSnoc(json, lines, line, x);
    assert s.inbox == [req] + s.inbox[1..];
  }

  lemma StringifyParses(json: Json, r: Response)
    requires Lawful(json)
    ensures OneLine(json.stringify(r)) && Parsed(json, json.stringify(r)) == Answer(r)
  {
    var s := json.stringify(r);
    assert LineText(s);
    assert TrimStart(JsSpace, s) == s && TrimEnd(JsSpace, s) == s;
  }

  lemma WireGrows(s: State, lines: seq<string>, line: string)
    requires s.client.buf + s.wire == Lines(lines)
    ensures s.client.buf + (s.wire + line + "\n") == Lines(lines + [line])
  {
    LinesSnoc(lines, line);
    assert s.client.buf + (s.wire + line + "\n") == (s.client.buf + s.wire) + line + "\n";
  }

  lemma StrayKeeps(json: Json, s: State, line: string, lines: seq<string>)
    requires Enabled(json, s, Stray(line)) && InvWith(json, s, lines)
    ensures InvWith(json, Apply(json, s, Stray(line)), lines + [line])
  {
    hide Lines, Attempts, FirstAnswer, Parsed;
    var t := Apply(json, s, Stray(line));
    forall i | 0 <= i < |t.inbox| ensures RequestOk(t, t.inbox[i]) { assert RequestOk(s, s.inbox[i]); }
    forall x: nat ensures CallOk(json, t, lines + [line], x) {
      assert CallOk(json, s, lines, x);
      FirstAnswerSnoc(json, lines, line, x);
    }
    WireGrows(s, lines, line);
  }

  /** The client has handled the first `j` lines: each call is as far as those lines take it. */
  lemma HandledKeeps(json: Json, s: State, lines: seq<string>, j: nat, x: nat)
    requires s.client.reading && j <= |lines| && HeardAll(json, lines[..j]) && ServerOk(s) && CallOk(json, s, lines, x)
    ensures CallOk(json, s.(client := HandleLines(json, s.client, lines[..j])), lines[j..], x)
  {
    hide Attempts, FirstAnswer, HandleLines;
    FirstAnswerWins(json, s.client, lines[..j], x);
    HeardIsAll(json, lines[..j], x);
    assert lines == lines[..j] + lines[j..];
    FirstAnswerAppend(json, lines[..j], lines[j..], x);
  }

  /** `CallOk` looks at neither the text kept back nor the wire. */
  lemma TextIrrelevant(json: Json, s: State, lines: seq<string>, buf: string, wire: string, x: nat)
    requires CallOk(json, s, lines, x)
    ensures CallOk(json, s.(client := s.client.(buf := buf), wire := wire), lines, x)
  {
    hide Attempts, FirstAnswer;
  }

  lemma DeliverKeeps(json: Json, s: State, n: nat, lines: seq<string>) returns (rest: seq<string>)
    requires Enabled(json, s, Deliver(n)) && InvWith(json, s, lines)
    ensures InvWith(json, Apply(json, s, Deliver(n)), rest)
  {
    hide Lines, Drain, HandleLines, CallOk, RequestOk;
    var c := s.client.(buf := s.client.buf + s.wire[..n]);
    assert c.buf + s.wire[n..] == s.client.buf + s.wire;
    var j := DrainHandlesPrefix(json, c, s.wire[n..], lines);
    DrainLeavesNoLine(json, c);
    BufIrrelevant(json, s.client, lines[..j], c.buf);
    rest := lines[j..];
    var h := HandleLines(json, s.client, lines[..j]);
    var buf := Drain(json, c).buf;
    var t := Apply(json, s, Deliver(n));
    assert t == s.(client := h.(buf := buf), wire := s.wire[n..]);
    FirstAnswerWins(json, s.client, lines[..j], 0);
    assert h.calls == s.client.calls;
    forall i | 0 <= i < |t.inbox| ensures RequestOk(t, t.inbox[i]) {
      assert RequestOk(s, s.inbox[i]);
      RequestIrrelevant(s, h.(buf := buf), s.wire[n..], s.inbox[i]);
    }
    forall x: nat ensures CallOk(json, t, rest, x) {
      HandledKeeps(json, s, lines, j, x);
      TextIrrelevant(json, s.(client := h), rest, buf, s.wire[n..], x);
    }
    forall i | 0 <= i < |rest| ensures OneLine(rest[i]) { assert OneLine(lines[i + j]); }
  }

  lemma RequestIrrelevant(s: State, c: Client, wire: string, r: Request)
    requires RequestOk(s, r) && c.calls == s.client.calls
    ensures RequestOk(s.(client := c, wire := wire), r)
  {
  }

  lemma StepKeeps(json: Json, s: State, a: Action)
    requires Lawful(json) && Inv(json, s) && Enabled(json, s, a)
    ensures Inv(json, Apply(json, s, a))
  {
    hide InvWith, Lawful, Apply;
    var lines :| InvWith(json, s, lines);
    match a
    case MakeCall(call) => CallKeeps(json, s, call, lines);
    case Arrive => ArriveKeeps(json, s, lines);
    case WriteOk => WriteOkKeeps(json, s, lines);
    case WriteFail => WriteFailKeeps(json, s, lines);
    case Serve(reply) => ServeKeeps(json, s, reply, lines);
    case Stray(line) => StrayKeeps(json, s, line, lines);
    case Deliver(n) => var rest := DeliverKeeps(json, s, n, lines);
  }

  lemma {:induction false} RunKeeps(json: Json, s: State, actions: seq<Action>)
    requires Lawful(json) && Inv(json, s) && Runs(json, s, actions)
    ensures Inv(json, Run(json, s, actions))
    decreases |actions|
  {
    hide Inv, Lawful, Apply, Enabled;
    if actions != [] {
      StepKeeps(json, s, actions[0]);
      RunKeeps(json, Apply(json, s, actions[0]), actions[1..]);
    }
  }

  lemma InitialOk(json: Json)
    ensures Inv(json, INITIAL)
  {
    assert InvWith(json, INITIAL, []);
  }

  /** MAIN: under any interleaving of calls, writes that arrive, succeed or fail, answers, stray lines
      and deliveries cut anywhere, a call made is pending exactly when nothing has tried to settle its
      promise, and one whose promise was resolved with an answer got exactly what the server computed
      for its own method and parameters. */
  lemma AnswersReachTheirCalls(json: Json, actions: seq<Action>)
    requires Lawful(json) && Runs(json, INITIAL, actions)
    ensures
      var s := Run(json, INITIAL, actions);
      forall id: nat :: id < |s.client.calls| ==>
        var tries := Attempts(s.client.attempts, id);
        && (id in s.client.pending <==> tries == [])
        && (tries != [] && tries[0].Answered? ==>
              id in s.computed && s.computed[id] == (s.client.calls[id], tries[0].reply))
  {
    hide Attempts, Lawful;
    InitialOk(json);
    RunKeeps(json, INITIAL, actions);
    var s := Run(json, INITIAL, actions);
    var lines :| InvWith(json, s, lines);
    forall id: nat | id < |s.client.calls|
      ensures
        var tries := Attempts(s.client.attempts, id);
        && (id in s.client.pending <==> tries == [])
        && (tries != [] && tries[0].Answered? ==>
              id in s.computed && s.computed[id] == (s.client.calls[id], tries[0].reply))
    {
      assert CallOk(json, s, lines, id);
    }
  }

  /** MAIN: no answer is lost while the read loop runs. When every write has been made and every request
      read, the calls left pending are answered, each by its own answer first, in the text that the
      client has not read; so none is left when the loop still runs and every byte is delivered. */
  lemma NothingIsLost(json: Json, actions: seq<Action>) returns (unread: seq<string>)
    requires Lawful(json) && Runs(json, INITIAL, actions)
    requires Run(json, INITIAL, actions).unsent == [] && Run(json, INITIAL, actions).inbox == []
    ensures
      var s := Run(json, INITIAL, actions);
      && s.client.buf + s.wire == Lines(unread)
      && (forall id :: id in s.client.pending ==>
            id in s.computed && FirstAnswer(json, unread, id) == Some(s.computed[id].1))
      && (s.client.reading && s.wire == "" ==> s.client.pending == {})
  {
    hide Attempts, Lawful;
    InitialOk(json);
    RunKeeps(json, INITIAL, actions);
    var s := Run(json, INITIAL, actions);
    var lines :| InvWith(json, s, lines);
    unread := lines;
    forall id | id in s.client.pending
      ensures id in s.computed && FirstAnswer(json, unread, id) == Some(s.computed[id].1)
    {
      assert CallOk(json, s, lines, id);
    }
    if s.client.reading && s.wire == "" {
      LinesEnd(lines);
      assert s.client.buf + s.wire == s.client.buf;
      assert s.client.pending == {};
    }
  }

  /** MAIN: once a `null` has ended the read loop, no call is ever answered again. */
  lemma {:induction false} NoAnswerAfterNull(json: Json, s: State, actions: seq<Action>, id: nat)
    requires Runs(json, s, actions) && !s.client.reading
    ensures
      var t := Run(json, s, actions);
      var before, after := Attempts(s.client.attempts, id), Attempts(t.client.attempts, id);
      && !t.client.reading
      && before <= after && forall k :: |before| <= k < |after| ==> after[k] == WriteFailed
    decreases |actions|
  {
    hide Attempts, Drain;
    if actions != [] {
      var a := actions[0];
      if a.WriteFail? {
        AttemptsSnoc(s.client.attempts, Attempt(s.unsent[0].id, WriteFailed), id);
      }
      NoAnswerAfterNull(json, Apply(json, s, a), actions[1..], id);
    }
  }

  /** The input: the server prints `null` before its answer, and all of it is delivered. */
  lemma NullLosesAnswers(json: Json, call: Call, reply: Reply, line: string)
    requires Lawful(json) && OneLine(line) && Parsed(json, line) == JsonNull
    ensures
      var n := |line| + 1 + |json.stringify(Response(0, reply))| + 1;
      var actions := [MakeCall(call), Arrive, WriteOk, Stray(line), Serve(reply), Deliver(n)];
      && Runs(json, INITIAL, actions)
      && var s := Run(json, INITIAL, actions);
         s.unsent == [] && s.inbox == [] && s.wire == "" && s.client.pending == {0} && !s.client.reading
  {
    hide Drain, Parsed, Lawful;
    var answer := json.stringify(Response(0, reply));
    var deliver := Deliver(|line| + 1 + |answer| + 1);
    var s5 := NullOnWire(json, call, reply, line, [deliver]);
    var c := s5.client.(buf := s5.client.buf + s5.wire[..deliver.n]);
    assert c.buf == line + "\n" + (answer + "\n");
    NullEndsDrain(json, c, line, answer + "\n");
    assert Apply(json, s5, deliver).wire == "";
    RunCons(json, s5, deliver, []);
    assert [deliver] + [] == [deliver];
    assert [MakeCall(call), Arrive, WriteOk, Stray(line), Serve(reply)] + [deliver] ==
           [MakeCall(call), Arrive, WriteOk, Stray(line), Serve(reply), deliver];
  }

  lemma NullOnWire(json: Json, call: Call, reply: Reply, line: string, rest: seq<Action>) returns (s: State)
    requires OneLine(line) && Parsed(json, line) == JsonNull
    ensures
      var wire := line + "\n" + json.stringify(Response(0, reply)) + "\n";
      s == State(Client([call], {0}, [], "", true), [], false, [], wire, map[0 := (call, reply)])
    ensures Runs(json, s, rest) ==>
              var actions := [MakeCall(call), Arrive, WriteOk, Stray(line), Serve(reply)] + rest;
              Runs(json, INITIAL, actions) && Run(json, INITIAL, actions) == Run(json, s, rest)
  {
    hide Drain, Parsed;
    var s1 := Apply(json, INITIAL, MakeCall(call));
    var s2 := Apply(json, s1, Arrive);
    var s3 := Apply(json, s2, WriteOk);
    var s4 := Apply(json, s3, Stray(line));
    s := Apply(json, s4, Serve(reply));
    assert "" + line == line;
    if Runs(json, s, rest) {
      hide Apply, Enabled;
      var from3 := [Stray(line)] + ([Serve(reply)] + rest);
      RunCons(json, s4, Serve(reply), rest);
      RunCons(json, s3, Stray(line), [Serve(reply)] + rest);
      RunCons(json, s2, WriteOk, from3);
      RunCons(json, s1, Arrive, [WriteOk] + from3);
      RunCons(json, INITIAL, MakeCall(call), [Arrive] + ([WriteOk] + from3));
      assert [MakeCall(call), Arrive, WriteOk, Stray(line), Serve(reply)] + rest ==
             [MakeCall(call)] + ([Arrive] + ([WriteOk] + from3));
    }
  }

  lemma NullEndsDrain(json: Json, c: Client, line: string, rest: string)
    requires OneLine(line) && Parsed(json, line) == JsonNull && c.reading && c.buf == line + "\n" + rest
    ensures Drain(json, c) == c.(buf := rest, reading := false)
  {
    assert c.buf[|line|] == '\n';
    FirstLineEnds(line, rest, c.buf, "");
    var next := HandleLine(json, c.(buf := rest), Trim(JsSpace, line));
    DrainUnfold(json, c);
    DrainUnfold(json, next);
  }

  lemma LinesEnd(lines: seq<string>)
    ensures lines != [] ==> '\n' in Lines(lines)
  {
    if lines != [] {
      assert Lines(lines)[|lines[0]|] == '\n';
    }
  }

  /** MAIN: because a call leaves `pending` with its answer, its promise is answered at most once,
      however often the server repeats itself, and an answer after a failed write is dropped. A
      second attempt is made by a failed write alone: exactly when it fails after the answer came. */
  lemma SettledOnce(json: Json, actions: seq<Action>, a: Action, id: nat)
    requires Lawful(json) && Runs(json, INITIAL, actions)
    requires Enabled(json, Run(json, INITIAL, actions), a)
    ensures
      var s := Run(json, INITIAL, actions);
      var t := Apply(json, s, a);
      var before, after := Attempts(s.client.attempts, id), Attempts(t.client.attempts, id);
      && before <= after
      && (before != [] ==> (before != after <==> a.WriteFail? && s.unsent[0].id == id))
      && (|after| > 1 ==> |after| == 2 && after[0].Answered? && after[1] == WriteFailed)
  {
    hide Attempts, Lawful;
    InitialOk(json);
    RunKeeps(json, INITIAL, actions);
    var s := Run(json, INITIAL, actions);
    var t := Apply(json, s, a);
    StepKeeps(json, s, a);
    var lines, later :| InvWith(json, s, lines) && InvWith(json, t, later);
    assert CallOk(json, s, lines, id) && CallOk(json, t, later, id);
    match a
    case WriteFail => AttemptsSnoc(s.client.attempts, Attempt(s.unsent[0].id, WriteFailed), id);
    case Deliver(n) => DeliveredOn(json, s, n, lines, id);
    case _ =>
  }

  lemma DeliveredOn(json: Json, s: State, n: nat, lines: seq<string>, id: nat)
    requires Enabled(json, s, Deliver(n)) && InvWith(json, s, lines)
    ensures
      var before, after := Attempts(s.client.attempts, id), Attempts(Apply(json, s, Deliver(n)).client.attempts, id);
      before <= after && (id !in s.client.pending ==> before == after)
  {
    hide Lines, Drain, HandleLines, CallOk, RequestOk, Attempts;
    var c := s.client.(buf := s.client.buf + s.wire[..n]);
    assert c.buf + s.wire[n..] == s.client.buf + s.wire;
    var j := DrainHandlesPrefix(json, c, s.wire[n..], lines);
    FirstAnswerWins(json, c, lines[..j], id);
  }

  /** The input: a write whose bytes arrive, whose answer comes, and which then fails. */
  lemma LateWriteErrorRejectsAgain(json: Json, call: Call, reply: Reply)
    requires Lawful(json)
    ensures
      var n := |json.stringify(Response(0, reply))| + 1;
      var actions := [MakeCall(call), Arrive, Serve(reply), Deliver(n), WriteFail];
      && Runs(json, INITIAL, actions)
      && Attempts(Run(json, INITIAL, actions).client.attempts, 0) == [Answered(reply), WriteFailed]
  {
    hide Attempts, Drain, Parsed, Lawful, OneLine;
    var line := json.stringify(Response(0, reply));
    var n := |line| + 1;
    StringifyParses(json, Response(0, reply));
    var s3 := AnswerOnWire(json, call, reply, [Deliver(n), WriteFail]);
    assert s3.wire[..n] == line + "\n" && "" + (line + "\n") == line + "\n";
    var c := s3.client.(buf := s3.client.buf + s3.wire[..n]);
    OneAnswer(json, c, line, reply);
    var s4 := Apply(json, s3, Deliver(n));
    AttemptsSnoc(s4.client.attempts, Attempt(0, WriteFailed), 0);
    RunCons(json, s4, WriteFail, []);
    assert [WriteFail] == [WriteFail] + [] && [Deliver(n), WriteFail] == [Deliver(n)] + [WriteFail];
    RunCons(json, s3, Deliver(n), [WriteFail]);
    assert [MakeCall(call), Arrive, Serve(reply)] + [Deliver(n), WriteFail] ==
           [MakeCall(call), Arrive, Serve(reply), Deliver(n), WriteFail];
  }

  lemma AnswerOnWire(json: Json, call: Call, reply: Reply, rest: seq<Action>) returns (s: State)
    ensures
      var line := json.stringify(Response(0, reply));
      s == State(Client([call], {0}, [], "", true), [Request(0, call)], true, [], line + "\n", map[0 := (call, reply)])
    ensures Runs(json, s, rest) ==>
              var actions := [MakeCall(call), Arrive, Serve(reply)] + rest;
              Runs(json, INITIAL, actions) && Run(json, INITIAL, actions) == Run(json, s, rest)
  {
    hide Drain, Parsed;
    var s1 := Apply(json, INITIAL, MakeCall(call));
    var s2 := Apply(json, s1, Arrive);
    s := Apply(json, s2, Serve(reply));
    assert "" + json.stringify(Response(0, reply)) == json.stringify(Response(0, reply));
    if Runs(json, s, rest) {
      RunCons(json, s2, Serve(reply), rest);
      RunCons(json, s1, Arrive, [Serve(reply)] + rest);
      RunCons(json, INITIAL, MakeCall(call), [Arrive] + ([Serve(reply)] + rest));
      assert [MakeCall(call), Arrive, Serve(reply)] + rest == [MakeCall(call)] + ([Arrive] + ([Serve(reply)] + rest));
    }
  }

  lemma OneAnswer(json: Json, c: Client, line: string, reply: Reply)
    requires OneLine(line) && Parsed(json, line) == Answer(Response(0, reply))
    requires c.reading && c.buf == line + "\n" && 0 in c.pending && c.attempts == []
    ensures Attempts(Drain(json, c).attempts, 0) == [Answered(reply)]
  {
    hide Drain, HandleLines, Parsed;
    assert [line][1..] == [] && Lines([line]) == line + "\n" + Lines([]) && c.buf + "" == Lines([line]);
    var j := DrainHandlesPrefix(json, c, "", [line]);
    DrainLeavesNoLine(json, c);
    LinesEnd([line][j..]);
    assert Heard(json, [line])[1..] == Heard(json, []) && Heard(json, [line]) == [line];
    FirstAnswerWins(json, c, [line][..j], 0);
    assert Drain(json, c).buf + "" == Drain(json, c).buf && j == 1 && [line][..1] == [line];
    FirstAnswerSnoc(json, [], line, 0);
    assert [] + [line] == [line];
    assert FirstAnswer(json, [], 0) == None && Attempts([], 0) == [];
  }

  lemma RunCons(json: Json, s: State, a: Action, rest: seq<Action>)
    requires Enabled(json, s, a) && Runs(json, Apply(json, s, a), rest)
    ensures Runs(json, s, [a] + rest) && Run(json, s, [a] + rest) == Run(json, Apply(json, s, a), rest)
  {
    assert ([a] + rest)[1..] == rest;
  }
}
