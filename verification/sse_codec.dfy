/** The OpenAI-style server-sent-events codec: the printer of `openai_sse.ts` and the
    incremental parser of `sse_parsers.ts`. A stream is text already decoded from UTF-8, cut
    into the pieces that the reader happens to deliver. */
module SseCodec {
  import opened Options
  import opened Text

  datatype FinishReason = Stop | Length
  datatype ChatChunk = ChatChunk(content: string, done: bool, finish: Option<FinishReason>)

  /** What the parser learns from `JSON.parse(payload)`: an exception, `null` (whose property
      access throws), an object without a first choice, or its first choice. */
  datatype Parsed = NotJson | JsonNull | NoChoice | Choice(content: string, finish: Option<string>)

  /** The four objects the printer serialises. */
  datatype Frame = RoleFrame | ContentFrame(text: string) | FinishFrame(reason: FinishReason)
    | ErrorFrame(message: string)

  /** `JSON.stringify` on those objects and `JSON.parse` as the parser uses it. */
  datatype Json = Json(stringify: Frame -> string, parse: string -> Parsed)

  function ReasonText(r: FinishReason): string {
    match r
    case Stop => "stop"
    case Length => "length"
  }

  function Meaning(f: Frame): Parsed {
    match f
    case RoleFrame => Choice("", None)
    case ContentFrame(t) => Choice(t, None)
    case FinishFrame(r) => Choice("", Some(ReasonText(r)))
    case ErrorFrame(_) => NoChoice
  }

  /** JSON text of an object: braces outside, control characters escaped inside. */
  predicate ObjectText(s: string) {
    |s| >= 2 && s[0] == '{' && s[|s| - 1] == '}' && '\n' !in s && '\r' !in s
  }

  ghost predicate Lawful(json: Json) {
    forall f: Frame :: ObjectText(json.stringify(f)) && json.parse(json.stringify(f)) == Meaning(f)
  }

  // ---------- Printer ----------

  /** What the printer's source delivers: chunks, then either a regular end or an exception. */
  datatype Source = Source(chunks: seq<ChatChunk>, failure: Option<string>)

  function Event(payload: string): string {
    "data: " + payload + "\n\n"
  }

  const DONE_EVENT: string := "data: [DONE]\n\n"

  function FinishOf(c: ChatChunk): FinishReason {
    if c.finish.Some? then c.finish.value else Stop
  }

  function ContentEvents(json: Json, c: ChatChunk): seq<string> {
    if c.content == "" then [] else [Event(json.stringify(ContentFrame(c.content)))]
  }

  /** The events for the chunks still to come. */
  function Events(json: Json, src: Source): seq<string>
    decreases |src.chunks|
  {
    if src.chunks == [] then
      if src.failure.Some? then [Event(json.stringify(ErrorFrame(src.failure.value))), DONE_EVENT] else []
    else
      var c := src.chunks[0];
      ContentEvents(json, c) +
      if c.done then [Event(json.stringify(FinishFrame(FinishOf(c)))), DONE_EVENT]
      else Events(json, src.(chunks := src.chunks[1..]))
  }

  function RoleEvents(json: Json, src: Source): seq<string> {
    if src.chunks == [] then [] else [Event(json.stringify(RoleFrame))]
  }

  /** What is still to be printed when `i` chunks have been read. */
  ghost function Remaining(json: Json, src: Source, i: nat): seq<string>
    requires i <= |src.chunks|
  {
    (if i == 0 then RoleEvents(json, src) else []) + Events(json, src.(chunks := src.chunks[i..]))
  }

  /** What the printer enqueues for one chunk. */
  ghost function ChunkEvents(json: Json, c: ChatChunk, first: bool): seq<string> {
    (if first then [Event(json.stringify(RoleFrame))] else [])
    + ContentEvents(json, c)
    + (if c.done then [Event(json.stringify(FinishFrame(FinishOf(c)))), DONE_EVENT] else [])
  }

  lemma RemainingStep(json: Json, src: Source, i: nat)
    requires i < |src.chunks|
    ensures
      var c := src.chunks[i];
      Remaining(json, src, i) == ChunkEvents(json, c, i == 0) + if c.done then [] else Remaining(json, src, i + 1)
  {
    hide Event;
    var c, rest := src.chunks[i], src.(chunks := src.chunks[i..]);
    assert rest.chunks[0] == c && rest.chunks[1..] == src.chunks[i + 1..];
    var role, content := if i == 0 then RoleEvents(json, src) else [], ContentEvents(json, c);
    var finish := [Event(json.stringify(FinishFrame(FinishOf(c)))), DONE_EVENT];
    if c.done {
      assert Events(json, rest) == content + finish;
      hide Events, ContentEvents;
      assert role + (content + finish) == (role + content + finish) + [];
    } else {
      var later := Events(json, src.(chunks := src.chunks[i + 1..]));
      assert Events(json, rest) == content + later;
      hide Events, ContentEvents;
      assert role + (content + later) == (role + content + []) + ([] + later);
    }
  }

  lemma RemainingNext(json: Json, src: Source, i: nat, printed: seq<string>)
    requires i < |src.chunks|
    ensures
      var c := src.chunks[i];
      printed + Remaining(json, src, i) ==
      printed + ChunkEvents(json, c, i == 0) + if c.done then [] else Remaining(json, src, i + 1)
  {
    RemainingStep(json, src, i);
  }

  lemma RemainingEnd(json: Json, src: Source)
    ensures Remaining(json, src, |src.chunks|) ==
            if src.failure.Some? then [Event(json.stringify(ErrorFrame(src.failure.value))), DONE_EVENT] else []
  {
  }

  function Encoded(json: Json, src: Source): seq<string> {
    RoleEvents(json, src) + Events(json, src)
  }

  /** The printer's read loop: the role event goes out with the first chunk only. */
  method EncodeStream(json: Json, src: Source) returns (out: seq<string>)
    ensures out == Encoded(json, src)
  {
    hide Events;
    out := [];
    var firstChunk := true;
    var i := 0;
    assert src.(chunks := src.chunks[0..]) == src;
    while i < |src.chunks|
      invariant 0 <= i <= |src.chunks|
      invariant firstChunk <==> i == 0
      invariant Encoded(json, src) == out + Remaining(json, src, i)
    {
      var value := src.chunks[i];
      ghost var before := out;
      if firstChunk {
        out := out + [Event(json.stringify(RoleFrame))];
      }
      if value.content != "" {
        out := out + [Event(json.stringify(ContentFrame(value.content)))];
      }
      if value.done {
        out := out + [Event(json.stringify(FinishFrame(FinishOf(value)))), DONE_EVENT];
      }
      assert out == before + ChunkEvents(json, value, firstChunk);
      RemainingNext(json, src, i, before);
      if value.done {
        return;
      }
      firstChunk := false;
      i := i + 1;
    }
    RemainingEnd(json, src);
    if src.failure.Some? {
      out := out + [Event(json.stringify(ErrorFrame(src.failure.value))), DONE_EVENT];
    }
  }

  // ---------- Parser ----------

  datatype Phase = Reading | Closed | Errored
  datatype ParserState = ParserState(buf: string, phase: Phase, out: seq<ChatChunk>)

  const INITIAL: ParserState := ParserState("", Reading, [])

  /** Index of the first blank-line delimiter, or -1. */
  function FirstBlank(s: string): (r: int)
    ensures -1 <= r && r + 1 < |s| + (if r == -1 then 1 else 0)
    ensures r >= 0 ==> s[r] == '\n' && s[r + 1] == '\n'
    ensures r >= 0 ==> forall k :: 0 <= k < r ==> !(s[k] == '\n' && s[k + 1] == '\n')
    ensures r == -1 ==> forall k :: 0 <= k < |s| - 1 ==> !(s[k] == '\n' && s[k + 1] == '\n')
  {
    if |s| < 2 then -1
    else if s[0] == '\n' && s[1] == '\n' then 0
    else
      var k := FirstBlank(s[1..]);
      if k == -1 then -1 else k + 1
  }

  /** The trimmed value of a `data:` line. */
  function DataValue(line: string): seq<string> {
    if "data:" <= line then [Trim(JsSpace, line[5..])] else []
  }

  /** The values of the `data:` lines, in order. */
  function DataValues(lines: seq<string>): seq<string> {
    if lines == [] then [] else DataValue(lines[0]) + DataValues(lines[1..])
  }

  function Emit(content: string): seq<ChatChunk> {
    if content == "" then [] else [ChatChunk(content, false, None)]
  }

  function HandlePayload(st: ParserState, p: Parsed): ParserState {
    match p
    case NotJson => st
    case JsonNull => st.(phase := Errored)
    case NoChoice => st
    case Choice(content, finish) =>
      if finish.Some? && finish.value != "" then
        st.(out := st.out + Emit(content)
                   + [ChatChunk("", true, Some(if finish.value == "length" then Length else Stop))],
            phase := Closed)
      else st.(out := st.out + Emit(content))
  }

  function HandleFrame(parse: string -> Parsed, st: ParserState, frame: string): ParserState {
    var values := DataValues(Lines(frame));
    if values == [] then st
    else
      var payload := Join("\n", values);
      if payload == "[DONE]" then st.(phase := Closed) else HandlePayload(st, parse(payload))
  }

  /** Every complete frame in the buffer is taken off its front, until the stream closes. */
  function Drain(parse: string -> Parsed, st: ParserState): ParserState
    decreases |st.buf|
  {
    var sep := FirstBlank(st.buf);
    if st.phase != Reading || sep == -1 then st
    else
      var rest := st.(buf := st.buf[sep + 2..]);
      var next := HandleFrame(parse, rest, st.buf[..sep]);
      Drain(parse, next)
  }

  /** The first character, unless it is the CR of a CR LF pair. */
  function FirstKept(s: string): string
    requires s != ""
  {
    if s[0] == '\r' && |s| >= 2 && s[1] == '\n' then "" else [s[0]]
  }

  /** `replace(/\r\n/g, "\n")`: a CR goes when an LF follows it. */
  function CrLfToLf(s: string): string {
    if s == "" then "" else FirstKept(s) + CrLfToLf(s[1..])
  }

  function CrToLf(s: string): string {
    seq(|s|, i requires 0 <= i < |s| => if s[i] == '\r' then '\n' else s[i])
  }

  function Normalize(piece: string): string {
    CrToLf(CrLfToLf(piece))
  }

  function Feed(parse: string -> Parsed, st: ParserState, piece: string): ParserState {
    if st.phase != Reading then st
    else Drain(parse, st.(buf := st.buf + Normalize(piece)))
  }

  function FeedAll(parse: string -> Parsed, st: ParserState, pieces: seq<string>): ParserState
    decreases |pieces|
  {
    if pieces == [] then st else FeedAll(parse, Feed(parse, st, pieces[0]), pieces[1..])
  }

  /** The closure state of one `openAiSseToChunks` stream. `out` holds what was enqueued. */
  class SseParser {
    const parse: string -> Parsed
    var buf: string
    var phase: Phase
    var out: seq<ChatChunk>

    ghost function State(): ParserState
      reads this
    {
      ParserState(buf, phase, out)
    }

    constructor (parse: string -> Parsed)
      ensures this.parse == parse && State() == INITIAL
    {
      this.parse := parse;
      buf, phase, out := "", Reading, [];
    }

    /** One iteration of the outer loop: append a decoded piece, then take the complete frames. */
    method Read(piece: string)
      requires phase == Reading
      modifies this
      ensures State() == Feed(parse, old(State()), piece)
    {
      hide HandleFrame;
      hide Normalize;
      buf := buf + Normalize(piece);
      ghost var start := State();
      var sep := FirstBlank(buf);
      while phase == Reading && sep != -1
        invariant sep == FirstBlank(buf)
        invariant Drain(parse, State()) == Drain(parse, start)
        decreases |buf|
      {
        var frame := buf[..sep];
        buf := buf[sep + 2..];
        Dispatch(frame);
        sep := FirstBlank(buf);
      }
    }

    /** The body of the inner loop, after the frame has been cut off the buffer. */
    method Dispatch(frame: string)
      requires phase == Reading
      modifies this`phase, this`out
      ensures State() == HandleFrame(parse, old(State()), frame)
    {
      var values := DataValues(Lines(frame));
      if values == [] { return; }
      var payload := Join("\n", values);
      if payload == "[DONE]" {
        phase := Closed;
        return;
      }
      match parse(payload)
      case NotJson =>
      case JsonNull => phase := Errored;
      case NoChoice =>
      case Choice(content, finish) =>
        if content != "" {
          out := out + [ChatChunk(content, false, None)];
        }
        if finish.Some? && finish.value != "" {
          out := out + [ChatChunk("", true, Some(if finish.value == "length" then Length else Stop))];
          phase := Closed;
        }
    }

    /** `pull`: reads on until the source ends or the stream closes; the rest of the buffer is dropped. */
    method Pull(pieces: seq<string>)
      requires phase == Reading
      modifies this
      ensures FeedAll(parse, old(State()), pieces).out == out
      ensures phase == if FeedAll(parse, old(State()), pieces).phase == Errored then Errored else Closed
    {
      var i := 0;
      ghost var start := State();
      while i < |pieces| && phase == Reading
        invariant 0 <= i <= |pieces|
        invariant FeedAll(parse, State(), pieces[i..]) == FeedAll(parse, start, pieces)
      {
        assert pieces[i..][0] == pieces[i] && pieces[i..][1..] == pieces[i + 1..];
        Read(pieces[i]);
        i := i + 1;
      }
      FeedAllStopped(parse, State(), pieces[i..]);
      if phase == Reading {
        phase := Closed;
      }
    }
  }

  lemma {:induction false} FeedAllStopped(parse: string -> Parsed, st: ParserState, pieces: seq<string>)
    ensures st.phase != Reading ==> FeedAll(parse, st, pieces) == st
  {
    if pieces != [] {
      FeedAllStopped(parse, st, pieces[1..]);
    }
  }

  // ---------- Cutting the stream anywhere ----------

  /** The same to a consumer: chunks, outcome and, while still reading, the text kept back. */
  predicate Same(s: ParserState, t: ParserState) {
    s.out == t.out && s.phase == t.phase && (s.phase == Reading ==> s.buf == t.buf)
  }

  lemma FirstBlankAppend(a: string, b: string)
    ensures FirstBlank(a) != -1 ==> FirstBlank(a + b) == FirstBlank(a)
  {
    var k := FirstBlank(a);
    if k != -1 {
      var m := FirstBlank(a + b);
      assert (a + b)[k] == '\n' && (a + b)[k + 1] == '\n';
      assert forall j :: 0 <= j <= k + 1 ==> (a + b)[j] == a[j];
    }
  }

  lemma HandleFrameKeepsBuf(parse: string -> Parsed, st: ParserState, frame: string, b: string)
    ensures HandleFrame(parse, st, frame).buf == st.buf
    ensures HandleFrame(parse, st.(buf := b), frame) == HandleFrame(parse, st, frame).(buf := b)
  {
  }

  /** The state after draining `st` and then `more` text. */
  function DrainThen(parse: string -> Parsed, st: ParserState, more: string): ParserState {
    if st.phase == Reading then Drain(parse, st.(buf := st.buf + more)) else st
  }

  lemma DrainFrame(parse: string -> Parsed, st: ParserState)
    ensures
      var sep := FirstBlank(st.buf);
      Drain(parse, st) ==
      if st.phase != Reading || sep == -1 then st
      else Drain(parse, HandleFrame(parse, st.(buf := st.buf[sep + 2..]), st.buf[..sep]))
  {
  }

  /** More text behind a complete frame stays behind it. */
  lemma FrameThen(parse: string -> Parsed, st: ParserState, b: string)
    requires st.phase == Reading && FirstBlank(st.buf) != -1
    ensures
      var sep := FirstBlank(st.buf);
      var next := HandleFrame(parse, st.(buf := st.buf[sep + 2..]), st.buf[..sep]);
      DrainThen(parse, st, b) == Drain(parse, next.(buf := next.buf + b))
  {
    hide HandleFrame, Drain, FirstBlank;
    var sep := FirstBlank(st.buf);
    FirstBlankAppend(st.buf, b);
    DrainFrame(parse, st.(buf := st.buf + b));
    assert (st.buf + b)[sep + 2..] == st.buf[sep + 2..] + b;
    assert (st.buf + b)[..sep] == st.buf[..sep];
    HandleFrameKeepsBuf(parse, st.(buf := st.buf[sep + 2..]), st.buf[..sep], st.buf[sep + 2..] + b);
  }

  lemma {:induction false} DrainAppend(parse: string -> Parsed, st: ParserState, b: string)
    requires st.phase == Reading
    ensures Same(DrainThen(parse, st, b), DrainThen(parse, Drain(parse, st), b))
    decreases |st.buf|
  {
    hide HandleFrame, Drain, FirstBlank;
    var sep := FirstBlank(st.buf);
    DrainFrame(parse, st);
    if sep != -1 {
      var next := HandleFrame(parse, st.(buf := st.buf[sep + 2..]), st.buf[..sep]);
      FrameThen(parse, st, b);
      HandleFrameKeepsBuf(parse, st.(buf := st.buf[sep + 2..]), st.buf[..sep], "");
      if next.phase == Reading {
        DrainAppend(parse, next, b);
      } else {
        DrainFrame(parse, next);
        DrainFrame(parse, next.(buf := next.buf + b));
      }
    }
  }

  lemma {:induction false} FeedAllDrains(parse: string -> Parsed, st: ParserState, pieces: seq<string>)
    requires st.phase == Reading && Drain(parse, st) == st
    ensures Same(FeedAll(parse, st, pieces), DrainThen(parse, st, Flat(NormalizeEach(pieces))))
    decreases |pieces|
  {
    if pieces == [] {
      assert st.buf + Flat(NormalizeEach(pieces)) == st.buf;
    } else {
      FeedAllDrainsStep(parse, st, pieces);
      var next := Feed(parse, st, pieces[0]);
      if next.phase == Reading {
        DrainIdempotent(parse, st.(buf := st.buf + Normalize(pieces[0])));
        FeedAllDrains(parse, next, pieces[1..]);
      } else {
        FeedAllStopped(parse, next, pieces[1..]);
      }
    }
  }

  lemma FeedAllDrainsStep(parse: string -> Parsed, st: ParserState, pieces: seq<string>)
    requires st.phase == Reading && pieces != []
    ensures Same(DrainThen(parse, st, Flat(NormalizeEach(pieces))),
                 DrainThen(parse, Feed(parse, st, pieces[0]), Flat(NormalizeEach(pieces[1..]))))
  {
    var norm := NormalizeEach(pieces);
    var whole := st.(buf := st.buf + Normalize(pieces[0]));
    var more := Flat(norm[1..]);
    assert norm[1..] == NormalizeEach(pieces[1..]);
    assert st.buf + Flat(norm) == whole.buf + more;
    DrainAppend(parse, whole, more);
  }

  lemma {:induction false} DrainIdempotent(parse: string -> Parsed, st: ParserState)
    ensures Drain(parse, Drain(parse, st)) == Drain(parse, st)
    decreases |st.buf|
  {
    hide HandleFrame;
    var sep := FirstBlank(st.buf);
    if st.phase == Reading && sep != -1 {
      HandleFrameKeepsBuf(parse, st.(buf := st.buf[sep + 2..]), st.buf[..sep], "");
      DrainIdempotent(parse, HandleFrame(parse, st.(buf := st.buf[sep + 2..]), st.buf[..sep]));
    }
  }

  function NormalizeEach(pieces: seq<string>): seq<string> {
    seq(|pieces|, i requires 0 <= i < |pieces| => Normalize(pieces[i]))
  }

  /** `b` continues `a` in the middle of a CR LF pair. */
  predicate CutsCrLf(a: string, b: string) {
    a != "" && b != "" && a[|a| - 1] == '\r' && b[0] == '\n'
  }

  lemma {:induction false} CrLfAppend(a: string, b: string)
    requires !CutsCrLf(a, b)
    ensures CrLfToLf(a + b) == CrLfToLf(a) + CrLfToLf(b)
  {
    hide CrLfToLf;
    CrLfUnfold(a);
    CrLfUnfold(a + b);
    if a == "" {
      assert a + b == b;
    } else {
      assert (a + b)[1..] == a[1..] + b;
      CrLfAppend(a[1..], b);
      assert FirstKept(a + b) == FirstKept(a);
      assert FirstKept(a) + (CrLfToLf(a[1..]) + CrLfToLf(b)) == FirstKept(a) + CrLfToLf(a[1..]) + CrLfToLf(b);
    }
  }

  lemma CrLfUnfold(s: string)
    ensures CrLfToLf(s) == if s == "" then "" else FirstKept(s) + CrLfToLf(s[1..])
  {
  }

  lemma CrLfPair(b: string)
    requires b != "" && b[0] == '\n'
    ensures CrLfToLf("\r" + b) == CrLfToLf(b)
  {
    assert ("\r" + b)[1..] == b;
  }

  lemma CrLfCut(a: string, b: string)
    requires CutsCrLf(a, b)
    ensures |CrLfToLf(a + b)| == |CrLfToLf(a)| - 1 + |CrLfToLf(b)|
  {
    var body := a[..|a| - 1];
    assert a == body + "\r";
    assert a + b == body + ("\r" + b);
    CrLfAppend(body, "\r");
    CrLfAppend(body, "\r" + b);
    CrLfPair(b);
    assert CrLfToLf("\r") == "\r" by { assert "\r"[1..] == ""; }
  }

  /** Newline normalisation piece by piece agrees with normalising the whole exactly when no CR LF pair is cut. */
  lemma NormalizeAppend(a: string, b: string)
    ensures Normalize(a + b) == Normalize(a) + Normalize(b) <==> !CutsCrLf(a, b)
  {
    if CutsCrLf(a, b) {
      CrLfCut(a, b);
      assert |Normalize(a + b)| == |Normalize(a)| - 1 + |Normalize(b)|;
    } else {
      CrLfAppend(a, b);
      assert Normalize(a + b) == Normalize(a) + Normalize(b);
    }
  }

  /** No cut of this division falls inside a CR LF pair. */
  ghost predicate CleanCut(before: string, pieces: seq<string>)
    decreases |pieces|
  {
    pieces == [] || (!CutsCrLf(before, pieces[0]) && CleanCut(before + pieces[0], pieces[1..]))
  }

  lemma {:induction false} NormalizePieces(before: string, pieces: seq<string>)
    ensures Normalize(before) + Flat(NormalizeEach(pieces)) == Normalize(before + Flat(pieces)) <==>
        CleanCut(before, pieces)
    ensures |Normalize(before + Flat(pieces))| <= |Normalize(before)| + |Flat(NormalizeEach(pieces))|
    decreases |pieces|
  {
    var norm := NormalizeEach(pieces);
    if pieces == [] {
      assert before + Flat(pieces) == before;
      assert Normalize(before) + Flat(norm) == Normalize(before);
    } else {
      var p, more := pieces[0], Flat(NormalizeEach(pieces[1..]));
      assert norm[1..] == NormalizeEach(pieces[1..]);
      assert before + Flat(pieces) == (before + p) + Flat(pieces[1..]);
      assert Normalize(before) + Flat(norm) == Normalize(before) + Normalize(p) + more;
      NormalizePieces(before + p, pieces[1..]);
      NormalizeAppend(before, p);
      if CutsCrLf(before, p) {
        CrLfCut(before, p);
        assert |Normalize(before + p)| < |Normalize(before) + Normalize(p)|;
      }
    }
  }

  /** MAIN: as long as no cut falls between CR and LF, the chunks and the outcome depend on the
      text alone and not on how it was cut into reads. */
  lemma SplitInvariance(parse: string -> Parsed, pieces: seq<string>)
    requires CleanCut("", pieces)
    ensures Same(FeedAll(parse, INITIAL, pieces), Feed(parse, INITIAL, Flat(pieces)))
  {
    FeedAllDrains(parse, INITIAL, pieces);
    NormalizePieces("", pieces);
    assert "" + Flat(pieces) == Flat(pieces);
    assert Normalize("") + Flat(NormalizeEach(pieces)) == Flat(NormalizeEach(pieces));
    assert INITIAL.buf + Flat(NormalizeEach(pieces)) == Flat(NormalizeEach(pieces));
    assert INITIAL.buf + Normalize(Flat(pieces)) == Normalize(Flat(pieces));
  }

  lemma {:induction false} CrFreeIsClean(before: string, pieces: seq<string>)
    requires '\r' !in before && '\r' !in Flat(pieces)
    ensures CleanCut(before, pieces)
    decreases |pieces|
  {
    if pieces != [] {
      assert Flat(pieces) == pieces[0] + Flat(pieces[1..]);
      assert forall c :: c in pieces[0] ==> c in Flat(pieces);
      assert forall c :: c in Flat(pieces[1..]) ==> c in Flat(pieces);
      CrFreeIsClean(before + pieces[0], pieces[1..]);
    }
  }

  // ---------- Printing and parsing back ----------

  /** Position of the first terminal chunk, or the length when there is none. */
  function FirstDone(chunks: seq<ChatChunk>): (k: nat)
    ensures k <= |chunks|
    ensures k < |chunks| ==> chunks[k].done
    ensures forall i :: 0 <= i < k ==> !chunks[i].done
  {
    if chunks == [] || chunks[0].done then 0 else FirstDone(chunks[1..]) + 1
  }

  /** The non-empty texts, in order, as content chunks. */
  function Contents(chunks: seq<ChatChunk>): seq<ChatChunk> {
    if chunks == [] then [] else Emit(chunks[0].content) + Contents(chunks[1..])
  }

  /** What a consumer of the printed stream is entitled to see. */
  function Expected(chunks: seq<ChatChunk>): seq<ChatChunk> {
    var k := FirstDone(chunks);
    if k == |chunks| then Contents(chunks)
    else Contents(chunks[..k + 1]) + [ChatChunk("", true, Some(FinishOf(chunks[k])))]
  }

  lemma {:induction false} ExpectedUnfold(chunks: seq<ChatChunk>)
    requires chunks != []
    ensures Expected(chunks) == Emit(chunks[0].content) +
            if chunks[0].done then [ChatChunk("", true, Some(FinishOf(chunks[0])))] else Expected(chunks[1..])
  {
    hide Emit, FinishOf;
    var k := FirstDone(chunks);
    if chunks[0].done {
      assert chunks[..1] == [chunks[0]];
      assert Contents([chunks[0]]) == Emit(chunks[0].content) + Contents([]);
    } else if k < |chunks| {
      assert chunks[..k + 1][1..] == chunks[1..][..k];
    }
  }

  lemma LinesOfOne(s: string)
    requires '\n' !in s
    ensures Lines(s) == [s]
  {
  }

  lemma TrimOneSpace(v: string)
    requires v != "" && Trimmed(JsSpace, v)
    ensures Trim(JsSpace, " " + v) == v
  {
    assert (" " + v)[1..] == v;
    assert TrimStart(JsSpace, v) == v;
    assert TrimEnd(JsSpace, v) == v;
  }

  /** A trimmed one-line value comes back as the one data value of its event. */
  lemma DataValueOf(v: string)
    requires v != "" && Trimmed(JsSpace, v) && '\n' !in v
    ensures DataValues(Lines("data: " + v)) == [v]
  {
    hide Trim;
    hide Lines;
    var frame := "data: " + v;
    LinesOfOne(frame);
    assert "data:" <= frame;
    assert frame[5..] == " " + v;
    TrimOneSpace(v);
    assert DataValues([frame]) == [v] + DataValues([frame][1..]);
  }

  lemma EventIsFirstFrame(frame: string, rest: string)
    requires frame != "" && frame[|frame| - 1] != '\n' && FirstBlank(frame) == -1
    ensures
      var buf := frame + "\n\n" + rest;
      FirstBlank(buf) == |frame| && buf[..|frame|] == frame && buf[|frame| + 2..] == rest
  {
    var buf := frame + "\n\n" + rest;
    assert forall i :: 0 <= i < |frame| ==> buf[i] == frame[i];
    assert buf[|frame|] == '\n' && buf[|frame| + 1] == '\n';
    assert buf[..|frame|] == frame && buf[|frame| + 2..] == rest;
  }

  lemma NoNewlineNoBlank(s: string)
    requires '\n' !in s
    ensures FirstBlank(s) == -1
  {
  }

  lemma DrainObjectEvent(json: Json, st: ParserState, f: Frame, rest: string)
    requires Lawful(json) && st.phase == Reading
    ensures Drain(json.parse, st.(buf := Event(json.stringify(f)) + rest))
         == Drain(json.parse, HandlePayload(st.(buf := rest), Meaning(f)))
  {
    var payload := json.stringify(f);
    var line := "data: " + payload;
    assert Event(payload) + rest == line + "\n\n" + rest;
    NoNewlineNoBlank(line);
    EventIsFirstFrame(line, rest);
    DataValueOf(payload);
    assert payload[0] != "[DONE]"[0];
  }

  lemma HandleDone(parse: string -> Parsed, st: ParserState)
    ensures HandleFrame(parse, st, "data: [DONE]") == st.(phase := Closed)
  {
    var value := "[DONE]";
    assert "data: [DONE]" == "data: " + value;
    DataValueOf(value);
  }

  lemma DrainDoneEvent(parse: string -> Parsed, st: ParserState, rest: string)
    requires st.phase == Reading
    ensures Drain(parse, st.(buf := DONE_EVENT + rest)) == st.(buf := rest, phase := Closed)
  {
    var line := "data: [DONE]";
    assert DONE_EVENT + rest == line + "\n\n" + rest;
    NoNewlineNoBlank(line);
    EventIsFirstFrame(line, rest);
    HandleDone(parse, st.(buf := rest));
  }

  /** Whether the printed stream carries its own terminator. */
  predicate Terminated(src: Source) {
    FirstDone(src.chunks) < |src.chunks| || src.failure.Some?
  }

  /** Draining the printed `events` from `st` appends `chunks`, and closes or keeps reading. */
  ghost predicate Delivers(
    parse: string -> Parsed, st: ParserState, events: seq<string>, chunks: seq<ChatChunk>, closes: bool) {
    var end := Drain(parse, st.(buf := Flat(events)));
    end.out == st.out + chunks && end.phase == if closes then Closed else Reading
  }

  lemma {:induction false} DrainEvents(json: Json, st: ParserState, src: Source)
    requires Lawful(json) && st.phase == Reading
    ensures Delivers(json.parse, st, Events(json, src), Expected(src.chunks), Terminated(src))
    decreases |src.chunks|
  {
    if src.chunks == [] {
      DrainEnd(json, st, src);
    } else {
      var c := src.chunks[0];
      var mid := st.(out := st.out + Emit(c.content));
      ExpectedUnfold(src.chunks);
      if c.done {
        DrainFinish(json, mid, FinishOf(c));
        DrainContent(json, st, c, [Event(json.stringify(FinishFrame(FinishOf(c)))), DONE_EVENT],
                     [ChatChunk("", true, Some(FinishOf(c)))], true);
      } else {
        var tail := src.(chunks := src.chunks[1..]);
        DrainEvents(json, mid, tail);
        DrainContent(json, st, c, Events(json, tail), Expected(tail.chunks), Terminated(tail));
      }
    }
  }

  lemma DrainEnd(json: Json, st: ParserState, src: Source)
    requires Lawful(json) && st.phase == Reading && src.chunks == []
    ensures Delivers(json.parse, st, Events(json, src), Expected(src.chunks), Terminated(src))
  {
    assert Expected(src.chunks) == [];
    if src.failure.Some? {
      var error := ErrorFrame(src.failure.value);
      assert Events(json, src) == [Event(json.stringify(error)), DONE_EVENT];
      hide Drain, Event, Lawful, Events, Expected;
      FlatTwo(Event(json.stringify(error)), DONE_EVENT);
      DrainObjectEvent(json, st, error, DONE_EVENT);
      assert HandlePayload(st.(buf := DONE_EVENT), Meaning(error)) == st.(buf := DONE_EVENT);
      assert DONE_EVENT + "" == DONE_EVENT;
      DrainDoneEvent(json.parse, st, "");
    } else {
      EmptyDrains(json.parse, st.(buf := ""));
    }
  }

  lemma DrainContentEvent(json: Json, st: ParserState, text: string, rest: string)
    requires Lawful(json) && st.phase == Reading && text != ""
    ensures Drain(json.parse, st.(buf := Event(json.stringify(ContentFrame(text))) + rest))
         == Drain(json.parse, st.(out := st.out + Emit(text)).(buf := rest))
  {
    DrainObjectEvent(json, st, ContentFrame(text), rest);
    assert HandlePayload(st.(buf := rest), Choice(text, None)) == st.(out := st.out + Emit(text)).(buf := rest);
  }

  lemma DrainContent(
    json: Json, st: ParserState, c: ChatChunk, after: seq<string>, chunks: seq<ChatChunk>, closes: bool)
    requires Lawful(json) && st.phase == Reading
    requires Delivers(json.parse, st.(out := st.out + Emit(c.content)), after, chunks, closes)
    ensures Delivers(json.parse, st, ContentEvents(json, c) + after, Emit(c.content) + chunks, closes)
  {
    hide Drain, Event, Lawful;
    assert st.out + (Emit(c.content) + chunks) == st.out + Emit(c.content) + chunks;
    var events := ContentEvents(json, c) + after;
    if c.content == "" {
      assert events == after;
      assert st.out + Emit(c.content) == st.out;
    } else {
      var event := Event(json.stringify(ContentFrame(c.content)));
      assert Flat(events) == event + Flat(after) by { assert events[1..] == after; }
      DrainContentEvent(json, st, c.content, Flat(after));
    }
  }

  lemma DrainFinish(json: Json, st: ParserState, r: FinishReason)
    requires Lawful(json) && st.phase == Reading
    ensures Delivers(json.parse, st, [Event(json.stringify(FinishFrame(r))), DONE_EVENT],
        [ChatChunk("", true, Some(r))], true)
  {
    hide Drain, Event, Lawful;
    FlatTwo(Event(json.stringify(FinishFrame(r))), DONE_EVENT);
    DrainObjectEvent(json, st, FinishFrame(r), DONE_EVENT);
    var closed := HandlePayload(st.(buf := DONE_EVENT), Meaning(FinishFrame(r)));
    assert closed.out == st.out + [ChatChunk("", true, Some(r))] && closed.phase == Closed;
    ClosedDrains(json.parse, closed);
  }

  lemma ClosedDrains(parse: string -> Parsed, st: ParserState)
    requires st.phase != Reading
    ensures Drain(parse, st) == st
  {
  }

  lemma FlatTwo(a: string, b: string)
    ensures Flat([a, b]) == a + b
  {
    assert [a, b][1..] == [b] && [b][1..] == [];
    assert Flat([b]) == b + Flat([]);
  }

  lemma EventHasNoCr(json: Json, f: Frame)
    requires Lawful(json)
    ensures '\r' !in Event(json.stringify(f))
  {
    assert ObjectText(json.stringify(f));
  }

  /** The end of a stream has no CR either. */
  lemma LastEventsHaveNoCr(json: Json, f: Frame)
    requires Lawful(json)
    ensures '\r' !in Flat([Event(json.stringify(f)), DONE_EVENT])
  {
    hide Event, Lawful;
    EventHasNoCr(json, f);
    FlatTwo(Event(json.stringify(f)), DONE_EVENT);
  }

  lemma ContentHasNoCr(json: Json, c: ChatChunk)
    requires Lawful(json)
    ensures '\r' !in Flat(ContentEvents(json, c))
  {
    hide Event, Lawful;
    if c.content != "" {
      EventHasNoCr(json, ContentFrame(c.content));
      assert Flat(ContentEvents(json, c)) == Event(json.stringify(ContentFrame(c.content))) + Flat([]);
    }
  }

  lemma {:induction false} EventsHaveNoCr(json: Json, src: Source)
    requires Lawful(json)
    ensures '\r' !in Flat(Events(json, src))
    decreases |src.chunks|
  {
    hide Event, Lawful, ContentEvents, FinishOf;
    if src.chunks == [] {
      if src.failure.Some? {
        LastEventsHaveNoCr(json, ErrorFrame(src.failure.value));
      }
    } else {
      var c := src.chunks[0];
      var tail := src.(chunks := src.chunks[1..]);
      var after := if c.done then [Event(json.stringify(FinishFrame(FinishOf(c)))), DONE_EVENT] else Events(json, tail);
      FlatAppend(ContentEvents(json, c), after);
      ContentHasNoCr(json, c);
      if c.done {
        LastEventsHaveNoCr(json, FinishFrame(FinishOf(c)));
      } else {
        EventsHaveNoCr(json, tail);
      }
    }
  }

  lemma CrFreeNormalize(s: string)
    requires '\r' !in s
    ensures Normalize(s) == s
  {
    CrFreeCrLf(s);
  }

  lemma {:induction false} CrFreeCrLf(s: string)
    requires '\r' !in s
    ensures CrLfToLf(s) == s
  {
    if s != "" {
      CrFreeCrLf(s[1..]);
      assert FirstKept(s) + s[1..] == s;
    }
  }

  lemma DrainRoleEvent(json: Json, rest: string)
    requires Lawful(json)
    ensures Drain(json.parse, INITIAL.(buf := Event(json.stringify(RoleFrame)) + rest)) ==
        Drain(json.parse, INITIAL.(buf := rest))
  {
    hide Drain, Event;
    DrainObjectEvent(json, INITIAL, RoleFrame, rest);
    assert HandlePayload(INITIAL.(buf := rest), Meaning(RoleFrame)) == INITIAL.(buf := rest);
  }

  lemma DrainEncoded(json: Json, src: Source)
    requires Lawful(json)
    ensures Delivers(json.parse, INITIAL, Encoded(json, src), Expected(src.chunks), Terminated(src))
  {
    hide Drain, Event, Events, Expected, Terminated, Lawful;
    DrainEvents(json, INITIAL, src);
    if src.chunks == [] {
      assert Encoded(json, src) == Events(json, src);
    } else {
      assert Encoded(json, src)[1..] == Events(json, src);
      DrainRoleEvent(json, Flat(Events(json, src)));
    }
  }

  lemma EncodedHasNoCr(json: Json, src: Source)
    requires Lawful(json)
    ensures '\r' !in Flat(Encoded(json, src))
  {
    FlatAppend(RoleEvents(json, src), Events(json, src));
    EventsHaveNoCr(json, src);
    if src.chunks != [] {
      assert Flat(RoleEvents(json, src)) == Event(json.stringify(RoleFrame)) + Flat([]);
    }
  }

  /** MAIN: printing any chunk sequence, cutting the printed text anywhere, and parsing the
      pieces gives the non-empty contents up to the first terminal chunk, then one terminal
      chunk with its reason if and only if the source had one. A failed source ends the stream
      without a terminal chunk. */
  lemma RoundTrip(json: Json, src: Source, pieces: seq<string>)
    requires Lawful(json)
    requires Flat(pieces) == Flat(Encoded(json, src))
    ensures
      var end := FeedAll(json.parse, INITIAL, pieces);
      && end.out == Expected(src.chunks)
      && end.phase == if Terminated(src) then Closed else Reading
  {
    var text := Flat(Encoded(json, src));
    EncodedHasNoCr(json, src);
    CrFreeIsClean("", pieces);
    SplitInvariance(json.parse, pieces);
    CrFreeNormalize(text);
    assert INITIAL.buf + Normalize(text) == text;
    DrainEncoded(json, src);
  }

  /** The parser works on the newline-normalised text of the stream if and only if no
      read boundary falls between a CR and its LF. */
  lemma SeesNormalizedTextIff(pieces: seq<string>)
    ensures Flat(NormalizeEach(pieces)) == Normalize(Flat(pieces)) <==> CleanCut("", pieces)
  {
    NormalizePieces("", pieces);
    assert "" + Flat(pieces) == Flat(pieces);
    assert Normalize("") + Flat(NormalizeEach(pieces)) == Flat(NormalizeEach(pieces));
  }

  /** A `data:` value that survives the parser's trimming, on one line. */
  predicate PlainValue(v: string) {
    v != "" && Trimmed(JsSpace, v) && '\n' !in v && '\r' !in v && v != "[DONE]"
  }

  lemma DataLine(v: string)
    requires PlainValue(v)
    ensures DataValues(["data:" + v]) == [v]
  {
    var line := "data:" + v;
    assert "data:" <= line && line[5..] == v;
    assert TrimStart(JsSpace, v) == v && TrimEnd(JsSpace, v) == v;
    assert DataValues([line]) == [v] + DataValues([line][1..]);
  }

  lemma HandleOneLine(parse: string -> Parsed, st: ParserState, v: string)
    requires PlainValue(v)
    ensures HandleFrame(parse, st, "data:" + v) == HandlePayload(st, parse(v))
  {
    LinesOfOne("data:" + v);
    DataLine(v);
  }

  lemma HandleTwoLines(parse: string -> Parsed, st: ParserState, u: string, v: string)
    requires PlainValue(u) && PlainValue(v)
    ensures HandleFrame(parse, st, "data:" + u + "\n" + ("data:" + v)) == HandlePayload(st, parse(u + "\n" + v))
  {
    hide Trim, HandlePayload, FirstNewline, DataValue;
    var first, second := "data:" + u, "data:" + v;
    var frame := first + "\n" + second;
    assert frame[|first|] == '\n' && frame[..|first|] == first && frame[|first| + 1..] == second;
    assert FirstNewline(frame) == |first|;
    LinesOfOne(second);
    assert Lines(frame) == [first] + [second];
    DataLine(u);
    DataLine(v);
    assert ([first] + [second])[1..] == [second];
    assert DataValues([first]) == DataValue(first) + DataValues([first][1..]);
    assert DataValues([first] + [second]) == [u] + [v];
    assert ([u] + [v])[1..] == [v];
    assert Join("\n", [u] + [v]) == u + "\n" + v;
    assert (u + "\n" + v)[|u|] == '\n' && '\n' !in "[DONE]";
  }

  /** One event of two data lines, ended by CR LF and blank line. */
  function TwoLineEvent(u: string, v: string): string {
    "data:" + u + "\r" + CutRest(v)
  }

  function CutRest(v: string): string {
    "\n" + ("data:" + v) + "\n\n"
  }

  lemma NormalizeUncut(u: string, v: string)
    requires PlainValue(u) && PlainValue(v)
    ensures Normalize(TwoLineEvent(u, v)) == "data:" + u + CutRest(v)
  {
    var first, rest := "data:" + u, CutRest(v);
    assert TwoLineEvent(u, v) == first + ("\r" + rest);
    CrLfAppend(first, "\r" + rest);
    CrLfPair(rest);
    CrFreeCrLf(first);
    CrFreeCrLf(rest);
  }

  lemma TwoLinesNoBlank(first: string, second: string)
    requires '\n' !in first && '\n' !in second && second != ""
    ensures FirstBlank(first + "\n" + second) == -1
  {
    var s := first + "\n" + second;
    assert forall k :: 0 <= k < |s| && k != |first| ==> s[k] != '\n';
  }

  lemma TwoLinesUncut(parse: string -> Parsed, u: string, v: string)
    requires PlainValue(u) && PlainValue(v)
    ensures Feed(parse, INITIAL, TwoLineEvent(u, v)).out == HandlePayload(INITIAL, parse(u + "\n" + v)).out
  {
    hide HandleFrame;
    hide Normalize;
    var frame := "data:" + u + "\n" + ("data:" + v);
    var buf := frame + "\n\n" + "";
    assert INITIAL.buf + Normalize(TwoLineEvent(u, v)) == buf by { NormalizeUncut(u, v); }
    TwoLinesNoBlank("data:" + u, "data:" + v);
    EventIsFirstFrame(frame, "");
    HandleTwoLines(parse, INITIAL, u, v);
    assert Drain(parse, INITIAL.(buf := buf)) == Drain(parse, HandleFrame(parse, INITIAL, frame));
  }

  /** The half before the cut holds no complete frame. */
  lemma FirstHalf(parse: string -> Parsed, u: string)
    requires PlainValue(u)
    ensures Feed(parse, INITIAL, "data:" + u + "\r") == INITIAL.(buf := "data:" + u + "\n")
  {
    var first := "data:" + u;
    CrLfAppend(first, "\r");
    CrFreeCrLf(first);
    assert CrLfToLf("\r") == "\r" by { assert "\r"[1..] == ""; }
    var buf := first + "\n";
    assert INITIAL.buf + Normalize(first + "\r") == buf;
    assert forall k :: 0 <= k < |first| ==> buf[k] == first[k] && buf[k] != '\n';
    assert FirstBlank(buf) == -1;
  }

  lemma DrainOneLine(parse: string -> Parsed, st: ParserState, v: string, rest: string)
    requires PlainValue(v) && st.phase == Reading
    ensures Drain(parse, st.(buf := "data:" + v + "\n\n" + rest)) ==
        Drain(parse, HandlePayload(st.(buf := rest), parse(v)))
  {
    NoNewlineNoBlank("data:" + v);
    EventIsFirstFrame("data:" + v, rest);
    HandleOneLine(parse, st.(buf := rest), v);
  }

  lemma EmptyDrains(parse: string -> Parsed, st: ParserState)
    requires st.buf == ""
    ensures Drain(parse, st) == st
  {
  }

  /** The half after the cut completes the first line's event and brings the second. */
  lemma SecondHalf(parse: string -> Parsed, u: string, v: string)
    requires PlainValue(u) && PlainValue(v) && HandlePayload(INITIAL, parse(u)).phase == Reading
    ensures Feed(parse, INITIAL.(buf := "data:" + u + "\n"), CutRest(v))
         == HandlePayload(HandlePayload(INITIAL, parse(u)), parse(v))
  {
    hide HandleFrame, Normalize, Drain;
    EmptyDrains(parse, HandlePayload(HandlePayload(INITIAL, parse(u)), parse(v)));
    var second := "data:" + v + "\n\n" + "";
    var one := HandlePayload(INITIAL.(buf := second), parse(u));
    assert one == HandlePayload(INITIAL, parse(u)).(buf := second);
    assert "data:" + u + "\n" + CutRest(v) == "data:" + u + "\n\n" + second;
    CrFreeNormalize(CutRest(v));
    DrainOneLine(parse, INITIAL, u, second);
    DrainOneLine(parse, one, v, "");
    assert one.(buf := "") == HandlePayload(INITIAL, parse(u));
  }

  lemma TwoLinesCut(parse: string -> Parsed, u: string, v: string)
    requires PlainValue(u) && PlainValue(v) && HandlePayload(INITIAL, parse(u)).phase == Reading
    ensures FeedAll(parse, INITIAL, ["data:" + u + "\r", CutRest(v)]).out
         == HandlePayload(HandlePayload(INITIAL, parse(u)), parse(v)).out
  {
    FirstHalf(parse, u);
    SecondHalf(parse, u, v);
    FeedTwo(parse, INITIAL, "data:" + u + "\r", CutRest(v));
  }

  lemma FeedTwo(parse: string -> Parsed, st: ParserState, p: string, q: string)
    ensures FeedAll(parse, st, [p, q]) == Feed(parse, Feed(parse, st, p), q)
  {
    assert [p, q][1..] == [q] && [q][1..] == [];
    assert FeedAll(parse, Feed(parse, st, p), [q]) == FeedAll(parse, Feed(parse, Feed(parse, st, p), q), []);
  }

  /** A cut between CR and LF does change the chunks: the parser sees a blank line where the
      stream has a line end, so a two-line event becomes two events. Whenever the two lines
      together are not JSON and the first alone is a chunk, that chunk appears from nowhere. */
  lemma CrLfCutChangesChunks(parse: string -> Parsed, u: string, v: string, content: string)
    requires PlainValue(u) && PlainValue(v) && content != ""
    requires parse(u) == Choice(content, None) && parse(v) == parse(u + "\n" + v) == NotJson
    ensures Flat(["data:" + u + "\r", CutRest(v)]) == TwoLineEvent(u, v)
    ensures Feed(parse, INITIAL, TwoLineEvent(u, v)).out == []
    ensures FeedAll(parse, INITIAL, ["data:" + u + "\r", CutRest(v)]).out == [ChatChunk(content, false, None)]
  {
    hide Feed, FeedAll, PlainValue, CutRest;
    TwoLinesUncut(parse, u, v);
    TwoLinesCut(parse, u, v);
    FlatTwo("data:" + u + "\r", CutRest(v));
  }

  // ---------- The JSON law can be met ----------

  function EscapeChar(c: char): string {
    if c == '\n' then "\\n" else if c == '\r' then "\\r" else if c == '\\' then "\\\\" else [c]
  }

  function Escape(s: string): string {
    if s == "" then "" else EscapeChar(s[0]) + Escape(s[1..])
  }

  lemma {:induction false} EscapeIsOneLine(s: string)
    ensures '\n' !in Escape(s) && '\r' !in Escape(s)
  {
    if s != "" {
      EscapeIsOneLine(s[1..]);
    }
  }

  lemma EscapeCharPrefix(x: char, s: string, y: char, t: string)
    requires EscapeChar(x) + s == EscapeChar(y) + t
    ensures x == y && s == t
  {
    var p, q := EscapeChar(x), EscapeChar(y);
    assert (p + s)[0] == p[0] && (q + t)[0] == q[0];
    assert |p| == 2 ==> (p + s)[1] == p[1];
    assert |q| == 2 ==> (q + t)[1] == q[1];
    assert x == y;
    assert (p + s)[|p|..] == s && (q + t)[|q|..] == t;
  }

  lemma {:induction false} EscapeInjective(a: string, b: string)
    requires Escape(a) == Escape(b)
    ensures a == b
  {
    hide EscapeChar;
    EscapeNonEmpty(a);
    EscapeNonEmpty(b);
    if a != "" && b != "" {
      EscapeCharPrefix(a[0], Escape(a[1..]), b[0], Escape(b[1..]));
      EscapeInjective(a[1..], b[1..]);
      assert a == [a[0]] + a[1..] && b == [b[0]] + b[1..];
    }
  }

  lemma EscapeNonEmpty(s: string)
    ensures Escape(s) == "" <==> s == ""
  {
    if s != "" {
      assert |EscapeChar(s[0])| >= 1;
    }
  }

  function SampleText(f: Frame): string {
    match f
    case RoleFrame => "{r}"
    case ContentFrame(t) => "{c" + Escape(t) + "}"
    case FinishFrame(r) => if r == Stop then "{s}" else "{l}"
    case ErrorFrame(m) => "{e" + Escape(m) + "}"
  }

  lemma SampleTextInjective(f: Frame, g: Frame)
    requires SampleText(f) == SampleText(g)
    ensures f == g
  {
    assert SampleText(f)[1] == SampleText(g)[1];
    if f.ContentFrame? {
      assert SampleText(f)[2..|SampleText(f)| - 1] == Escape(f.text);
      assert SampleText(g)[2..|SampleText(g)| - 1] == Escape(g.text);
      EscapeInjective(f.text, g.text);
    } else if f.ErrorFrame? {
      assert SampleText(f)[2..|SampleText(f)| - 1] == Escape(f.message);
      assert SampleText(g)[2..|SampleText(g)| - 1] == Escape(g.message);
      EscapeInjective(f.message, g.message);
    }
  }

  lemma SampleTextIsObject(f: Frame)
    ensures ObjectText(SampleText(f))
  {
    if f.ContentFrame? { EscapeIsOneLine(f.text); }
    if f.ErrorFrame? { EscapeIsOneLine(f.message); }
  }

  ghost function SampleParse(s: string): Parsed {
    if exists f :: SampleText(f) == s then
      var f :| SampleText(f) == s;
      Meaning(f)
    else NotJson
  }

  /** `Lawful` asks for nothing contradictory: an escaping printer with its inverse meets it. */
  lemma LawfulIsSatisfiable()
    ensures exists json :: Lawful(json)
  {
    var json := Json(SampleText, SampleParse);
    forall f: Frame ensures ObjectText(json.stringify(f)) && json.parse(json.stringify(f)) == Meaning(f) {
      SampleTextIsObject(f);
      var g :| SampleText(g) == SampleText(f) && SampleParse(SampleText(f)) == Meaning(g);
      SampleTextInjective(g, f);
    }
    assert Lawful(json);
  }
}
