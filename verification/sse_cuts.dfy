/** What a read boundary inside a CR LF pair does to the chunks of `SseCodec`. The parser's frames are
    first read line by line, as section 9.2.6 of the HTML standard does; the two readings of one
    division are then compared over the lines they share. */
module SseCuts {
  import opened Options
  import opened Text
  import opened SseCodec

  // ---------- The chunks depend on the payloads alone ----------

  /** The payload of one frame, if it has data. */
  function FramePayload(frame: string): seq<string> {
    Dispatch(DataValues(Lines(frame)))
  }

  function Dispatch(values: seq<string>): seq<string> {
    if values == [] then [] else [Join("\n", values)]
  }

  /** The payloads of the complete frames of `s`. */
  function Payloads(s: string): seq<string>
    decreases |s|
  {
    var sep := FirstBlank(s);
    if sep == -1 then [] else FramePayload(s[..sep]) + Payloads(s[sep + 2..])
  }

  function HandleOne(parse: string -> Parsed, st: ParserState, payload: string): ParserState {
    if payload == "[DONE]" then st.(phase := Closed) else HandlePayload(st, parse(payload))
  }

  function HandleAll(parse: string -> Parsed, st: ParserState, payloads: seq<string>): ParserState
    decreases |payloads|
  {
    if payloads == [] || st.phase != Reading then st
    else HandleAll(parse, HandleOne(parse, st, payloads[0]), payloads[1..])
  }

  lemma {:induction false} BufIrrelevant(parse: string -> Parsed, st: ParserState, payloads: seq<string>, b: string)
    ensures HandleAll(parse, st.(buf := b), payloads) == HandleAll(parse, st, payloads).(buf := b)
    decreases |payloads|
  {
    if payloads != [] && st.phase == Reading {
      assert HandleOne(parse, st.(buf := b), payloads[0]) == HandleOne(parse, st, payloads[0]).(buf := b);
      BufIrrelevant(parse, HandleOne(parse, st, payloads[0]), payloads[1..], b);
    }
  }

  lemma FrameIsPayload(parse: string -> Parsed, st: ParserState, frame: string, more: seq<string>)
    requires st.phase == Reading
    ensures HandleAll(parse, HandleFrame(parse, st, frame), more) == HandleAll(parse, st, FramePayload(frame) + more)
  {
    hide Lines, DataValues, Join;
    var payload := FramePayload(frame);
    if payload == [] {
      assert payload + more == more;
    } else {
      assert (payload + more)[1..] == more;
    }
  }

  lemma {:induction false} DrainHandles(parse: string -> Parsed, st: ParserState)
    ensures
      var end := HandleAll(parse, st, Payloads(st.buf));
      Drain(parse, st).out == end.out && Drain(parse, st).phase == end.phase
    decreases |st.buf|
  {
    hide HandleFrame, FramePayload, HandleOne;
    var sep := FirstBlank(st.buf);
    if st.phase == Reading && sep != -1 {
      var rest := st.(buf := st.buf[sep + 2..]);
      var next := HandleFrame(parse, rest, st.buf[..sep]);
      HandleFrameKeepsBuf(parse, rest, st.buf[..sep], "");
      DrainHandles(parse, next);
      FrameIsPayload(parse, rest, st.buf[..sep], Payloads(rest.buf));
      BufIrrelevant(parse, st, Payloads(st.buf), rest.buf);
    }
  }

  /** What comes before the terminator. */
  function BeforeDone(payloads: seq<string>): seq<string> {
    if payloads == [] || payloads[0] == "[DONE]" then [] else [payloads[0]] + BeforeDone(payloads[1..])
  }

  lemma {:induction false} HandlesBeforeDone(parse: string -> Parsed, st: ParserState, payloads: seq<string>)
    ensures
      var all, some := HandleAll(parse, st, payloads), HandleAll(parse, st, BeforeDone(payloads));
      all.out == some.out && (all.phase == Errored <==> some.phase == Errored)
    decreases |payloads|
  {
    hide HandlePayload;
    if payloads != [] && payloads[0] != "[DONE]" {
      var ps := BeforeDone(payloads);
      assert ps[0] == payloads[0] && ps[1..] == BeforeDone(payloads[1..]);
      HandlesBeforeDone(parse, HandleOne(parse, st, payloads[0]), payloads[1..]);
    }
  }

  /** A parser of payloads that shows each of them. */
  function ShowPayload(payload: string): Parsed {
    Choice("x" + payload, None)
  }

  function Shown(payloads: seq<string>): seq<ChatChunk> {
    if payloads == [] then [] else [ChatChunk("x" + payloads[0], false, None)] + Shown(payloads[1..])
  }

  lemma {:induction false} ShowsAll(st: ParserState, payloads: seq<string>)
    requires st.phase == Reading
    ensures HandleAll(ShowPayload, st, BeforeDone(payloads)).out == st.out + Shown(BeforeDone(payloads))
    decreases |payloads|
  {
    var ps := BeforeDone(payloads);
    if ps != [] {
      assert ps[1..] == BeforeDone(payloads[1..]);
      var next := HandleOne(ShowPayload, st, ps[0]);
      assert next.out == st.out + [ChatChunk("x" + ps[0], false, None)];
      ShowsAll(next, payloads[1..]);
    }
  }

  lemma {:induction false} ShownInjective(a: seq<string>, b: seq<string>)
    requires Shown(a) == Shown(b)
    ensures a == b
  {
    if a != [] && b != [] {
      assert Shown(a)[0] == Shown(b)[0];
      assert ("x" + a[0])[1..] == a[0] && ("x" + b[0])[1..] == b[0];
      assert Shown(a)[1..] == Shown(a[1..]) && Shown(b)[1..] == Shown(b[1..]);
      ShownInjective(a[1..], b[1..]);
      assert a == [a[0]] + a[1..] && b == [b[0]] + b[1..];
    }
  }

  // ---------- Frames read line by line ----------

  /** The lines of `s` that have ended. */
  function EndedLines(s: string): seq<string>
    decreases |s|
  {
    var k := FirstNewline(s);
    if k == -1 then [] else [s[..k]] + EndedLines(s[k + 1..])
  }

  /** A blank line dispatches the data gathered since the last one. */
  function LinePayloads(lines: seq<string>, values: seq<string>): seq<string>
    decreases |lines|
  {
    if lines == [] then []
    else if lines[0] == "" then Dispatch(values) + LinePayloads(lines[1..], [])
    else LinePayloads(lines[1..], values + DataValue(lines[0]))
  }

  lemma FirstLine(line: string, rest: string)
    requires '\n' !in line
    ensures FirstNewline(line + "\n" + rest) == |line|
    ensures EndedLines(line + "\n" + rest) == [line] + EndedLines(rest)
  {
    var s := line + "\n" + rest;
    var k := FirstNewline(s);
    assert s[|line|] == '\n';
    forall i | 0 <= i < |line| ensures s[i] != '\n' { assert s[i] == line[i]; }
    assert k == |line| && s[..k] == line && s[k + 1..] == rest;
  }

  lemma {:induction false} EndedSplit(frame: string, rest: string)
    ensures EndedLines(frame + "\n" + rest) == Lines(frame) + EndedLines(rest)
    decreases |frame|
  {
    hide EndedLines, FirstNewline;
    var k := FirstNewline(frame);
    if k == -1 {
      FirstLine(frame, rest);
    } else {
      var line, more := frame[..k], frame[k + 1..];
      assert frame == line + "\n" + more;
      assert frame + "\n" + rest == line + "\n" + (more + "\n" + rest);
      FirstLine(line, more + "\n" + rest);
      EndedSplit(more, rest);
      assert [line] + (Lines(more) + EndedLines(rest)) == [line] + Lines(more) + EndedLines(rest);
    }
  }

  /** Text without a blank line that does not start with a line end has no empty line. */
  lemma {:induction false} NoEmptyLine(s: string)
    requires FirstBlank(s) == -1 && (s == "" || s[0] != '\n')
    ensures "" !in EndedLines(s)
    decreases |s|
  {
    var k := FirstNewline(s);
    if k != -1 {
      assert s[k] == '\n' && s[..k] != "";
      var rest := s[k + 1..];
      forall j | 0 <= j < |rest| - 1 ensures !(rest[j] == '\n' && rest[j + 1] == '\n') {
        assert rest[j] == s[k + 1 + j] && rest[j + 1] == s[k + 2 + j];
      }
      assert rest != "" ==> rest[0] == s[k + 1];
      NoEmptyLine(rest);
    }
  }

  lemma {:induction false} Gathers(lines: seq<string>, more: seq<string>, values: seq<string>)
    requires "" !in lines
    ensures LinePayloads(lines + more, values) == LinePayloads(more, values + DataValues(lines))
  {
    hide DataValue;
    if lines == [] {
      assert lines + more == more && values + [] == values;
    } else {
      assert (lines + more)[1..] == lines[1..] + more;
      Gathers(lines[1..], more, values + DataValue(lines[0]));
      assert values + DataValue(lines[0]) + DataValues(lines[1..]) == values + DataValues(lines);
    }
  }

  lemma BlankHasNoData(lines: seq<string>)
    ensures DataValues([""] + lines) == DataValues(lines)
  {
    assert ([""] + lines)[1..] == lines;
  }

  /** Without a blank line nothing is dispatched, and all the data is gathered. */
  lemma UnblankedLines(s: string, more: seq<string>)
    requires FirstBlank(s) == -1
    ensures LinePayloads(EndedLines(s) + more, []) == LinePayloads(more, DataValues(EndedLines(s)))
  {
    hide DataValue, DataValues, LinePayloads, EndedLines, FirstBlank;
    var none: seq<string> := [];
    if s != "" && s[0] == '\n' {
      var rest := s[1..];
      assert s == "" + "\n" + rest;
      FirstLine("", rest);
      forall j | 0 <= j < |rest| - 1 ensures !(rest[j] == '\n' && rest[j + 1] == '\n') {
        assert rest[j] == s[1 + j] && rest[j + 1] == s[2 + j];
      }
      assert rest != "" ==> rest[0] == s[1];
      NoEmptyLine(rest);
      Gathers(EndedLines(rest), more, none);
      assert none + DataValues(EndedLines(rest)) == DataValues(EndedLines(rest));
      BlankHasNoData(EndedLines(rest));
      BlankDispatches(EndedLines(rest) + more, none);
      assert EndedLines(s) + more == [""] + (EndedLines(rest) + more);
      assert Dispatch(none) + LinePayloads(EndedLines(rest) + more, none) ==
        LinePayloads(EndedLines(rest) + more, none);
    } else {
      NoEmptyLine(s);
      Gathers(EndedLines(s), more, none);
      assert none + DataValues(EndedLines(s)) == DataValues(EndedLines(s));
    }
  }

  lemma FrameEnds(s: string, sep: nat)
    requires sep == FirstBlank(s)
    ensures LinePayloads(EndedLines(s), []) == FramePayload(s[..sep]) + LinePayloads(EndedLines(s[sep + 2..]), [])
  {
    hide DataValue, DataValues, LinePayloads, EndedLines, FirstBlank, Lines, Dispatch;
    var frame, rest := s[..sep], s[sep + 2..];
    assert s == frame + "\n" + ("" + "\n" + rest);
    EndedSplit(frame, "" + "\n" + rest);
    FirstLine("", rest);
    FrameUnblanked(s, sep);
    EndedSplit(frame, "");
    NothingEnded();
    assert Lines(frame) + [] == Lines(frame);
    var more := [""] + EndedLines(rest);
    assert EndedLines(s) == EndedLines(frame + "\n" + "") + more;
    UnblankedLines(frame + "\n" + "", more);
    BlankDispatches(EndedLines(rest), DataValues(Lines(frame)));
  }

  lemma NothingEnded()
    ensures EndedLines("") == []
  {
  }

  lemma NoLines(values: seq<string>)
    ensures LinePayloads([], values) == []
  {
  }

  lemma BlankDispatches(lines: seq<string>, values: seq<string>)
    ensures LinePayloads([""] + lines, values) == Dispatch(values) + LinePayloads(lines, [])
  {
    assert ([""] + lines)[1..] == lines;
  }

  lemma FrameUnblanked(s: string, sep: nat)
    requires sep == FirstBlank(s)
    ensures FirstBlank(s[..sep] + "\n" + "") == -1
  {
    var t := s[..sep] + "\n" + "";
    assert |t| == sep + 1;
    forall j | 0 <= j < |t| - 1 ensures !(t[j] == '\n' && t[j + 1] == '\n') {
      assert t[j] == s[j] && t[j + 1] == s[j + 1];
    }
  }

  lemma PayloadsUnfold(s: string)
    ensures
      var sep := FirstBlank(s);
      Payloads(s) == if sep == -1 then [] else FramePayload(s[..sep]) + Payloads(s[sep + 2..])
  {
    hide FramePayload, FirstBlank;
  }

  lemma NothingDispatchedIn(s: string)
    requires FirstBlank(s) == -1
    ensures LinePayloads(EndedLines(s), []) == []
  {
    hide LinePayloads, EndedLines, FirstBlank;
    UnblankedLines(s, []);
    assert EndedLines(s) + [] == EndedLines(s);
    NoLines(DataValues(EndedLines(s)));
  }

  /** MAIN: taking complete frames off a buffer gives the payloads that the line-by-line reading of an
      event stream gives. */
  lemma {:induction false} FramesAreEvents(s: string)
    ensures Payloads(s) == LinePayloads(EndedLines(s), [])
    decreases |s|
  {
    hide FramePayload, LinePayloads, EndedLines, FirstBlank, Payloads;
    var sep := FirstBlank(s);
    PayloadsUnfold(s);
    if sep == -1 {
      NothingDispatchedIn(s);
    } else {
      FrameEnds(s, sep);
      FramesAreEvents(s[sep + 2..]);
    }
  }

  // ---------- One division, read cut and uncut ----------

  /** The normalised text of a division. `Extra` is the line end that only the cut reading has, where a
      read ends between CR and LF. */
  datatype Mark = Char(c: char) | Extra

  function Chars(s: string): seq<Mark> {
    seq(|s|, i requires 0 <= i < |s| => Char(s[i]))
  }

  predicate EndsCr(s: string) {
    s != "" && s[|s| - 1] == '\r'
  }

  /** One piece of marked text; `cr` says that the text so far ends with CR. */
  function PieceMarks(cr: bool, p: string): seq<Mark> {
    if p != "" && cr && p[0] == '\n' then [Extra] + Chars(Normalize(p[1..])) else Chars(Normalize(p))
  }

  /** The whole division; `cr` says that the text so far ends with CR. */
  function Marked(cr: bool, pieces: seq<string>): seq<Mark>
    decreases |pieces|
  {
    if pieces == [] then []
    else PieceMarks(cr, pieces[0]) + Marked(if pieces[0] == "" then cr else EndsCr(pieces[0]), pieces[1..])
  }

  function PlainText(marks: seq<Mark>): string {
    if marks == [] then "" else (if marks[0].Char? then [marks[0].c] else "") + PlainText(marks[1..])
  }

  function CutText(marks: seq<Mark>): string {
    if marks == [] then "" else (if marks[0].Char? then [marks[0].c] else "\n") + CutText(marks[1..])
  }

  lemma ConsText(m: Mark, more: seq<Mark>)
    ensures PlainText([m] + more) == (if m.Char? then [m.c] else "") + PlainText(more)
    ensures CutText([m] + more) == [if m.Char? then m.c else '\n'] + CutText(more)
  {
    assert ([m] + more)[1..] == more;
  }

  lemma {:induction false} CharsText(s: string, more: seq<Mark>)
    ensures PlainText(Chars(s) + more) == s + PlainText(more)
    ensures CutText(Chars(s) + more) == s + CutText(more)
    decreases |s|
  {
    hide PlainText, CutText;
    if s == "" {
      assert Chars(s) + more == more;
      assert s + PlainText(more) == PlainText(more) && s + CutText(more) == CutText(more);
    } else {
      var c, rest := s[0], s[1..];
      assert Chars(s) + more == [Char(c)] + (Chars(rest) + more);
      ConsText(Char(c), Chars(rest) + more);
      CharsText(rest, more);
      assert s + PlainText(more) == [c] + (rest + PlainText(more));
      assert s + CutText(more) == [c] + (rest + CutText(more));
    }
  }

  lemma NormalizeNewline(q: string)
    ensures Normalize("\n" + q) == "\n" + Normalize(q)
  {
    assert ("\n" + q)[1..] == q;
    assert CrLfToLf("\n" + q) == "\n" + CrLfToLf(q);
  }

  lemma NormalizeCut(a: string, b: string)
    requires CutsCrLf(a, b)
    ensures Normalize(a + b) == Normalize(a) + Normalize(b[1..])
  {
    hide CrLfToLf;
    var body, q := a[..|a| - 1], b[1..];
    assert a == body + "\r" && b == "\n" + q;
    assert a + b == body + ("\r" + b);
    CrLfAppend(body, "\r");
    CrLfAppend(body, "\r" + b);
    CrLfPair(b);
    NormalizeNewline(q);
    LoneCr();
    assert Normalize(a + b) == CrToLf(CrLfToLf(body) + CrLfToLf(b));
    assert Normalize(a + b) == CrToLf(CrLfToLf(body)) + Normalize(b);
    assert Normalize(a) == CrToLf(CrLfToLf(body)) + "\n";
  }

  lemma LoneCr()
    ensures CrLfToLf("\r") == "\r" && Normalize("\r") == "\n"
  {
    assert "\r"[1..] == "";
  }

  lemma PieceTexts(cr: bool, p: string, more: seq<Mark>)
    ensures CutText(PieceMarks(cr, p) + more) == Normalize(p) + CutText(more)
    ensures PlainText(PieceMarks(cr, p) + more) ==
            (if p != "" && cr && p[0] == '\n' then Normalize(p[1..]) else Normalize(p)) + PlainText(more)
  {
    hide Normalize, PlainText, CutText, Chars;
    if p != "" && cr && p[0] == '\n' {
      var q := p[1..];
      assert p == "\n" + q;
      NormalizeNewline(q);
      CharsText(Normalize(q), more);
      ConsText(Extra, Chars(Normalize(q)) + more);
      assert PieceMarks(cr, p) + more == [Extra] + (Chars(Normalize(q)) + more);
      assert Normalize(p) + CutText(more) == ['\n'] + (Normalize(q) + CutText(more));
      assert "" + PlainText(Chars(Normalize(q)) + more) == PlainText(Chars(Normalize(q)) + more);
    } else {
      CharsText(Normalize(p), more);
    }
  }

  lemma NormalizePiece(before: string, p: string)
    ensures Normalize(before + p) ==
            Normalize(before) + if p != "" && EndsCr(before) && p[0] == '\n' then Normalize(p[1..]) else Normalize(p)
  {
    hide Normalize;
    if CutsCrLf(before, p) {
      NormalizeCut(before, p);
    } else {
      NormalizeAppend(before, p);
    }
  }

  lemma MarkedStep(before: string, pieces: seq<string>)
    requires pieces != []
    ensures Marked(EndsCr(before), pieces) ==
            PieceMarks(EndsCr(before), pieces[0]) + Marked(EndsCr(before + pieces[0]), pieces[1..])
  {
    hide PieceMarks;
    assert pieces[0] == "" ==> before + pieces[0] == before;
  }

  lemma NothingMarked(before: string)
    ensures Normalize(before + Flat([])) == Normalize(before) + PlainText(Marked(EndsCr(before), []))
  {
    hide Normalize;
    assert before + Flat([]) == before;
  }

  /** Without its extra line ends the marked text is the normalised text of the whole. */
  lemma {:induction false} PlainIs(before: string, pieces: seq<string>)
    ensures Normalize(before + Flat(pieces)) == Normalize(before) + PlainText(Marked(EndsCr(before), pieces))
    decreases |pieces|
  {
    hide *;
    if pieces == [] {
      NothingMarked(before);
    } else {
      var p, rest := pieces[0], pieces[1..];
      FlatCons(pieces);
      assert before + (p + Flat(rest)) == (before + p) + Flat(rest);
      PlainIs(before + p, rest);
      NormalizePiece(before, p);
      MarkedStep(before, pieces);
      PieceTexts(EndsCr(before), p, Marked(EndsCr(before + p), rest));
    }
  }

  /** With them it is what the parser sees. */
  lemma {:induction false} CutIs(cr: bool, pieces: seq<string>)
    ensures Flat(NormalizeEach(pieces)) == CutText(Marked(cr, pieces))
    decreases |pieces|
  {
    if pieces != [] {
      var p := pieces[0];
      var next := if p == "" then cr else EndsCr(p);
      assert NormalizeEach(pieces)[0] == Normalize(p) && NormalizeEach(pieces)[1..] == NormalizeEach(pieces[1..]);
      hide Normalize, PieceMarks, CutText;
      CutIs(next, pieces[1..]);
      PieceTexts(cr, p, Marked(next, pieces[1..]));
    }
  }

  lemma NormalizeEmpty()
    ensures Normalize("") == ""
  {
  }

  /** Extra line ends come right behind a line end. */
  predicate Placed(marks: seq<Mark>, atStart: bool) {
    marks == [] || ((marks[0].Extra? ==> atStart) && Placed(marks[1..], marks[0] == Extra || marks[0] == Char('\n')))
  }

  lemma {:induction false} CharsPlaced(s: string, more: seq<Mark>, atStart: bool)
    requires Placed(more, if s == "" then atStart else s[|s| - 1] == '\n')
    ensures Placed(Chars(s) + more, atStart)
    decreases |s|
  {
    var marks := Chars(s) + more;
    if s == "" {
      assert marks == more;
    } else {
      assert marks[0] == Char(s[0]) && marks[1..] == Chars(s[1..]) + more;
      CharsPlaced(s[1..], more, s[0] == '\n');
    }
  }

  lemma NormalizeEndsCr(p: string)
    requires EndsCr(p)
    ensures Normalize(p) != "" && Normalize(p)[|Normalize(p)| - 1] == '\n'
  {
    var body := p[..|p| - 1];
    assert p == body + "\r";
    NormalizeAppend(body, "\r");
    LoneCr();
  }

  lemma PiecePlaced(cr: bool, p: string, more: seq<Mark>)
    requires Placed(more, if p == "" then cr else EndsCr(p))
    ensures Placed(PieceMarks(cr, p) + more, cr)
  {
    hide Normalize;
    if p != "" && cr && p[0] == '\n' {
      var q := p[1..];
      if EndsCr(p) { NormalizeEndsCr(q); }
      CharsPlaced(Normalize(q), more, true);
      var rest := Chars(Normalize(q)) + more;
      assert ([Extra] + rest)[1..] == rest;
      assert [Extra] + Chars(Normalize(q)) + more == [Extra] + rest;
    } else {
      if EndsCr(p) { NormalizeEndsCr(p); }
      if p == "" { NormalizeEmpty(); }
      CharsPlaced(Normalize(p), more, cr);
    }
  }

  lemma {:induction false} MarkedPlaced(cr: bool, pieces: seq<string>)
    ensures Placed(Marked(cr, pieces), cr)
    decreases |pieces|
  {
    hide PieceMarks, EndsCr;
    if pieces != [] {
      var next := if pieces[0] == "" then cr else EndsCr(pieces[0]);
      MarkedPlaced(next, pieces[1..]);
      PiecePlaced(cr, pieces[0], Marked(next, pieces[1..]));
    }
  }

  /** The lines of a division as far as they end, and where it cuts a pair. */
  datatype Item = Line(text: string) | Cut

  function Items(marks: seq<Mark>, line: string): seq<Item> {
    if marks == [] then []
    else
      match marks[0]
      case Extra => [Cut] + Items(marks[1..], "")
      case Char(c) => if c == '\n' then [Line(line)] + Items(marks[1..], "") else Items(marks[1..], line + [c])
  }

  function Division(pieces: seq<string>): seq<Item> {
    Items(Marked(false, pieces), "")
  }

  function PlainLines(items: seq<Item>): seq<string> {
    if items == [] then [] else (if items[0].Line? then [items[0].text] else []) + PlainLines(items[1..])
  }

  function CutLines(items: seq<Item>): seq<string> {
    if items == [] then [] else [if items[0].Line? then items[0].text else ""] + CutLines(items[1..])
  }

  lemma ConsLines(item: Item, more: seq<Item>)
    ensures PlainLines([item] + more) == (if item.Line? then [item.text] else []) + PlainLines(more)
    ensures CutLines([item] + more) == [if item.Line? then item.text else ""] + CutLines(more)
  {
    assert ([item] + more)[1..] == more;
  }

  lemma {:induction false} ItemLines(marks: seq<Mark>, line: string, atStart: bool)
    requires '\n' !in line && Placed(marks, atStart) && (atStart ==> line == "")
    ensures EndedLines(line + PlainText(marks)) == PlainLines(Items(marks, line))
    ensures EndedLines(line + CutText(marks)) == CutLines(Items(marks, line))
    decreases |marks|
  {
    hide EndedLines, PlainLines, CutLines, PlainText, CutText;
    if marks == [] {
      UnendedLine(line);
    } else {
      var m, more := marks[0], marks[1..];
      assert marks == [m] + more;
      ConsText(m, more);
      var plain, cut, rest := PlainText(more), CutText(more), Items(more, "");
      assert "" + plain == plain && "" + cut == cut;
      if m == Extra {
        ItemLines(more, "", true);
        assert line + CutText(marks) == "" + "\n" + cut && line + PlainText(marks) == plain;
        FirstLine("", cut);
        ConsLines(Cut, rest);
      } else if m == Char('\n') {
        ItemLines(more, "", true);
        assert line + CutText(marks) == line + "\n" + cut && line + PlainText(marks) == line + "\n" + plain;
        FirstLine(line, cut);
        FirstLine(line, plain);
        ConsLines(Line(line), rest);
      } else {
        ItemLines(more, line + [m.c], false);
        assert line + CutText(marks) == line + [m.c] + cut && line + PlainText(marks) == line + [m.c] + plain;
      }
    }
  }

  lemma UnendedLine(line: string)
    requires '\n' !in line
    ensures EndedLines(line + PlainText([])) == PlainLines([]) && EndedLines(line + CutText([])) == CutLines([])
  {
    assert line + "" == line;
  }

  /** The payloads of the two readings. */
  function PlainPayloads(items: seq<Item>, values: seq<string>): seq<string> {
    LinePayloads(PlainLines(items), values)
  }

  function CutPayloads(items: seq<Item>, values: seq<string>): seq<string> {
    LinePayloads(CutLines(items), values)
  }

  lemma ReadingsOf(pieces: seq<string>)
    ensures Payloads(Normalize(Flat(pieces))) == PlainPayloads(Division(pieces), [])
    ensures Payloads(Flat(NormalizeEach(pieces))) == CutPayloads(Division(pieces), [])
  {
    hide Normalize, Payloads, Items, PlainLines, CutLines, LinePayloads, EndedLines;
    var marks := Marked(false, pieces);
    PlainIs("", pieces);
    NormalizeEmpty();
    assert "" + Flat(pieces) == Flat(pieces) && "" + PlainText(marks) == PlainText(marks);
    CutIs(false, pieces);
    MarkedPlaced(false, pieces);
    ItemLines(marks, "", false);
    assert "" + CutText(marks) == CutText(marks);
    FramesAreEvents(PlainText(marks));
    FramesAreEvents(CutText(marks));
  }

  // ---------- Which cuts change the chunks ----------

  const BLANK := Line("")

  /** A data line comes before the next blank line. */
  predicate DataFollows(items: seq<Item>) {
    items != [] && items[0] != BLANK &&
    ((items[0].Line? && DataValue(items[0].text) != []) || DataFollows(items[1..]))
  }

  /** Scanning a division with `values` gathered: is there a cut that changes the payloads? */
  predicate Harmful(items: seq<Item>, values: seq<string>)
    decreases |items|
  {
    items != [] &&
    var rest := items[1..];
    match items[0]
    case Line(t) =>
      if t == "" then "[DONE]" !in Dispatch(values) && Harmful(rest, [])
      else Harmful(rest, values + DataValue(t))
    case Cut =>
      if values != [] && BLANK !in rest then Join("\n", values) != "[DONE]"
      else (values != [] && DataFollows(rest)) || Harmful(rest, values)
  }

  lemma PlainCons(item: Item, more: seq<Item>, values: seq<string>)
    ensures PlainPayloads([item] + more, values) ==
            match item
            case Cut => PlainPayloads(more, values)
            case Line(t) =>
              if t == "" then Dispatch(values) + PlainPayloads(more, []) else PlainPayloads(more, values + DataValue(t))
  {
    hide PlainLines, CutLines, DataValue, Dispatch;
    ConsLines(item, more);
    var lines := PlainLines(more);
    if item.Line? {
      assert ([item.text] + lines)[1..] == lines;
    } else {
      assert [] + lines == lines;
    }
  }

  lemma CutCons(item: Item, more: seq<Item>, values: seq<string>)
    ensures CutPayloads([item] + more, values) ==
            if item == Cut || item == BLANK then Dispatch(values) + CutPayloads(more, [])
            else CutPayloads(more, values + DataValue(item.text))
  {
    hide PlainLines, CutLines, DataValue, Dispatch;
    ConsLines(item, more);
    var lines := CutLines(more);
    assert ([if item.Line? then item.text else ""] + lines)[1..] == lines;
  }

  lemma NoItems(values: seq<string>)
    ensures PlainPayloads([], values) == [] && CutPayloads([], values) == []
  {
  }

  lemma {:induction false} UnclosedIsSilent(items: seq<Item>, values: seq<string>)
    requires BLANK !in items
    ensures PlainPayloads(items, values) == []
    decreases |items|
  {
    hide PlainPayloads, DataValue;
    if items == [] {
      NoItems(values);
    } else {
      assert items == [items[0]] + items[1..];
      PlainCons(items[0], items[1..], values);
      UnclosedIsSilent(items[1..], if items[0].Line? then values + DataValue(items[0].text) else values);
    }
  }

  /** With no more data to come before the blank line, a payload can as well be dispatched now. */
  lemma {:induction false} EarlyDispatch(items: seq<Item>, values: seq<string>)
    requires BLANK in items && !DataFollows(items)
    ensures CutPayloads(items, values) == Dispatch(values) + CutPayloads(items, [])
    decreases |items|
  {
    hide CutPayloads, DataValue, Dispatch;
    var item, rest := items[0], items[1..];
    assert items == [item] + rest;
    CutCons(item, rest, values);
    CutCons(item, rest, []);
    NothingDispatched();
    if item == Cut || item == BLANK {
      assert [] + CutPayloads(rest, []) == CutPayloads(rest, []);
    } else {
      assert values + [] == values;
      var none: seq<string> := [];
      assert none + DataValue(item.text) == none;
      EarlyDispatch(rest, values);
    }
  }

  lemma NothingDispatched()
    ensures Dispatch([]) == []
  {
  }

  /** The uncut event goes on to its blank line. */
  lemma {:induction false} FirstPlain(items: seq<Item>, values: seq<string>) returns (more: seq<string>)
    requires BLANK in items && values != []
    ensures PlainPayloads(items, values) != [] && PlainPayloads(items, values)[0] == Join("\n", values + more)
    ensures DataFollows(items) ==> more != []
    decreases |items|
  {
    hide PlainPayloads, DataValue, Join;
    var item, rest := items[0], items[1..];
    assert items == [item] + rest;
    PlainCons(item, rest, values);
    if item == BLANK {
      more := [];
      assert values + more == values;
    } else if item == Cut {
      more := FirstPlain(rest, values);
    } else {
      var tail := FirstPlain(rest, values + DataValue(item.text));
      more := DataValue(item.text) + tail;
      assert values + more == values + DataValue(item.text) + tail;
    }
  }

  lemma {:induction false} JoinAppend(a: seq<string>, b: seq<string>)
    requires a != [] && b != []
    ensures Join("\n", a + b) == Join("\n", a) + "\n" + Join("\n", b)
  {
    if |a| == 1 {
      assert (a + b)[1..] == b;
    } else {
      assert (a + b)[1..] == a[1..] + b;
      JoinAppend(a[1..], b);
      assert a[0] + "\n" + (Join("\n", a[1..]) + "\n" + Join("\n", b)) ==
        a[0] + "\n" + Join("\n", a[1..]) + "\n" + Join("\n", b);
    }
  }

  lemma LongerPayload(values: seq<string>, more: seq<string>)
    requires values != [] && more != []
    ensures Join("\n", values + more) != Join("\n", values) && Join("\n", values + more) != "[DONE]"
  {
    hide Join;
    JoinAppend(values, more);
    var s := Join("\n", values + more);
    assert s[|Join("\n", values)|] == '\n';
    assert '\n' !in "[DONE]";
  }

  lemma BeforeDoneFirst(payloads: seq<string>)
    ensures payloads != [] && payloads[0] != "[DONE]" ==>
              BeforeDone(payloads) == [payloads[0]] + BeforeDone(payloads[1..])
    ensures payloads == [] || payloads[0] == "[DONE]" ==> BeforeDone(payloads) == []
  {
  }

  lemma BeforeDoneCons(values: seq<string>, more: seq<string>)
    ensures BeforeDone(Dispatch(values) + more) ==
            if "[DONE]" in Dispatch(values) then [] else Dispatch(values) + BeforeDone(more)
  {
    hide Join;
    if values == [] {
      assert Dispatch(values) + more == more;
    } else {
      assert (Dispatch(values) + more)[1..] == more;
    }
  }

  lemma Cancel(a: seq<string>, x: seq<string>, y: seq<string>)
    ensures a + x == a + y <==> x == y
  {
    assert (a + x)[|a|..] == x && (a + y)[|a|..] == y;
  }

  /** The two readings of the same lines give the consumer the same payloads unless a cut is harmful. */
  lemma {:induction false} ReadingsDifferIff(items: seq<Item>, values: seq<string>)
    ensures BeforeDone(PlainPayloads(items, values)) != BeforeDone(CutPayloads(items, values)) <==>
        Harmful(items, values)
    decreases |items|, 0
  {
    hide PlainPayloads, CutPayloads, DataValue, BeforeDone, Join, DataFollows;
    if items == [] {
      NoItems(values);
    } else {
      var item, rest := items[0], items[1..];
      assert items == [item] + rest;
      PlainCons(item, rest, values);
      CutCons(item, rest, values);
      if item == BLANK {
        BeforeDoneCons(values, PlainPayloads(rest, []));
        BeforeDoneCons(values, CutPayloads(rest, []));
        Cancel(Dispatch(values), BeforeDone(PlainPayloads(rest, [])), BeforeDone(CutPayloads(rest, [])));
        ReadingsDifferIff(rest, []);
      } else if item.Line? {
        ReadingsDifferIff(rest, values + DataValue(item.text));
      } else {
        CutDiffersIff(rest, values);
      }
    }
  }

  lemma {:induction false} CutDiffersIff(rest: seq<Item>, values: seq<string>)
    ensures BeforeDone(PlainPayloads(rest, values)) != BeforeDone(Dispatch(values) + CutPayloads(rest, []))
            <==> Harmful([Cut] + rest, values)
    decreases |rest|, 1
  {
    hide PlainPayloads, CutPayloads, DataValue, Join, DataFollows, BeforeDone;
    assert ([Cut] + rest)[1..] == rest;
    var cut := Dispatch(values) + CutPayloads(rest, []);
    if values == [] {
      assert cut == CutPayloads(rest, []);
      ReadingsDifferIff(rest, values);
    } else if BLANK !in rest {
      UnclosedIsSilent(rest, values);
      BeforeDoneFirst(PlainPayloads(rest, values));
      BeforeDoneCons(values, CutPayloads(rest, []));
    } else if DataFollows(rest) {
      var more := FirstPlain(rest, values);
      LongerPayload(values, more);
      var plain := PlainPayloads(rest, values);
      BeforeDoneFirst(plain);
      BeforeDoneFirst(cut);
      assert cut[0] == Join("\n", values) && plain[0] != cut[0];
      assert BeforeDone(plain)[0] == plain[0];
    } else {
      EarlyDispatch(rest, values);
      ReadingsDifferIff(rest, values);
    }
  }

  // ---------- The condition on one cut ----------

  /** The data of the open event after `items`. */
  function Gathered(items: seq<Item>, values: seq<string>): seq<string>
    decreases |items|
  {
    if items == [] then values
    else
      match items[0]
      case Cut => Gathered(items[1..], values)
      case Line(t) => Gathered(items[1..], if t == "" then [] else values + DataValue(t))
  }

  /** Item `i` cuts a CR LF pair inside an event that has a data line before it. If the event is
      closed by a blank line, another data line follows in it and no terminator came before; if it is
      not, the parser that sees the cuts has met no terminator up to this one. */
  predicate HarmfulCut(items: seq<Item>, values: seq<string>, i: nat) {
    && i < |items| && items[i] == Cut
    && Gathered(items[..i], values) != []
    && if BLANK in items[i + 1..] then DataFollows(items[i + 1..]) && "[DONE]" !in PlainPayloads(items[..i], values)
       else "[DONE]" !in CutPayloads(items[..i + 1], values)
  }

  lemma GatheredCons(item: Item, more: seq<Item>, values: seq<string>)
    ensures Gathered([item] + more, values) ==
            if item == Cut then Gathered(more, values)
            else Gathered(more, if item == BLANK then [] else values + DataValue(item.text))
  {
    hide DataValue;
    assert ([item] + more)[1..] == more;
  }

  /** A line in front of a cut. */
  lemma HarmBehindLine(t: string, rest: seq<Item>, values: seq<string>, i: nat)
    ensures HarmfulCut([Line(t)] + rest, values, i + 1) <==>
            (t == "" ==> "[DONE]" !in Dispatch(values))
              && HarmfulCut(rest, if t == "" then [] else values + DataValue(t), i)
  {
    hide PlainPayloads, CutPayloads, DataValue, Dispatch, Gathered, DataFollows;
    var items := [Line(t)] + rest;
    if i < |rest| {
      assert items[..i + 1] == [Line(t)] + rest[..i] && items[..i + 2] == [Line(t)] + rest[..i + 1];
      assert items[i + 2..] == rest[i + 1..] && items[i + 1] == rest[i];
      GatheredCons(Line(t), rest[..i], values);
      PlainCons(Line(t), rest[..i], values);
      CutCons(Line(t), rest[..i + 1], values);
    }
  }

  /** A harmless cut in front of another. */
  lemma HarmBehindCut(rest: seq<Item>, values: seq<string>, i: nat)
    requires values == [] || (BLANK in rest && !DataFollows(rest))
    ensures HarmfulCut([Cut] + rest, values, i + 1) <==> HarmfulCut(rest, values, i)
  {
    hide PlainPayloads, CutPayloads, DataValue, Dispatch, Join, Gathered;
    var items := [Cut] + rest;
    NothingDispatched();
    if i < |rest| {
      assert items[..i + 1] == [Cut] + rest[..i] && items[..i + 2] == [Cut] + rest[..i + 1];
      assert items[i + 2..] == rest[i + 1..] && items[i + 1] == rest[i];
      GatheredCons(Cut, rest[..i], values);
      PlainCons(Cut, rest[..i], values);
      CutCons(Cut, rest[..i + 1], values);
      var none: seq<string> := [];
      assert none + CutPayloads(rest[..i + 1], []) == CutPayloads(rest[..i + 1], []);
      if values != [] && BLANK !in rest[i + 1..] {
        assert rest == rest[..i + 1] + rest[i + 1..];
        PrefixFollows(rest, i + 1);
        EarlyDispatch(rest[..i + 1], values);
      }
    }
  }

  lemma {:induction false} PrefixFollows(items: seq<Item>, n: nat)
    requires n <= |items|
    ensures DataFollows(items[..n]) ==> DataFollows(items)
    decreases n
  {
    if n > 0 {
      assert items[..n][1..] == items[1..][..n - 1];
      PrefixFollows(items[1..], n - 1);
    }
  }

  /** A cut that dispatches data of an event that is not closed is harmful unless it is a terminator,
      and a terminator makes every later cut harmless. */
  lemma HarmOfOpenCut(rest: seq<Item>, values: seq<string>, i: nat)
    requires values != [] && BLANK !in rest
    ensures HarmfulCut([Cut] + rest, values, 0) <==> Join("\n", values) != "[DONE]"
    ensures HarmfulCut([Cut] + rest, values, i) ==> Join("\n", values) != "[DONE]"
  {
    hide PlainPayloads, CutPayloads, DataValue, Join, DataFollows;
    var items := [Cut] + rest;
    assert items[1..] == rest && items[..0] == [];
    assert items[..1] == [Cut] + [];
    CutCons(Cut, [], values);
    NoItems([]);
    if i < |items| {
      assert items[..i + 1] == [Cut] + rest[..i];
      CutCons(Cut, rest[..i], values);
      assert items[i + 1..] == rest[i..];
    }
  }

  lemma {:induction false} HarmfulIff(items: seq<Item>, values: seq<string>)
    ensures Harmful(items, values) <==> exists i: nat :: HarmfulCut(items, values, i)
    decreases |items|
  {
    hide HarmfulCut, DataValue, Join, DataFollows, Dispatch;
    if items == [] {
      NoHarm(values);
    } else {
      var item, rest := items[0], items[1..];
      assert items == [item] + rest;
      if item.Line? {
        var next := if item == BLANK then [] else values + DataValue(item.text);
        HarmfulIff(rest, next);
        var open := item == BLANK ==> "[DONE]" !in Dispatch(values);
        forall i: nat | i > 0 ensures HarmfulCut(items, values, i) <==> open && HarmfulCut(rest, next, i - 1) {
          HarmBehindLine(item.text, rest, values, i - 1);
        }
        NoHarmAtLine(items, values);
        ShiftHarm(items, values, rest, next, open);
      } else if values != [] && BLANK !in rest {
        HarmOfOpenCut(rest, values, 0);
        if i: nat :| HarmfulCut(items, values, i) {
          HarmOfOpenCut(rest, values, i);
        }
      } else if values != [] && DataFollows(rest) {
        HarmOfClosedCut(rest, values);
      } else {
        HarmfulIff(rest, values);
        forall i: nat | i > 0 ensures HarmfulCut(items, values, i) <==> HarmfulCut(rest, values, i - 1) {
          HarmBehindCut(rest, values, i - 1);
        }
        HarmOfClosedCut(rest, values);
        ShiftHarm(items, values, rest, values, true);
      }
    }
  }

  lemma NoHarm(values: seq<string>)
    ensures forall i: nat :: !HarmfulCut([], values, i)
  {
  }

  lemma NoHarmAtLine(items: seq<Item>, values: seq<string>)
    requires items != [] && items[0].Line?
    ensures !HarmfulCut(items, values, 0)
  {
  }

  lemma HarmOfClosedCut(rest: seq<Item>, values: seq<string>)
    requires values == [] || BLANK in rest
    ensures HarmfulCut([Cut] + rest, values, 0) <==> values != [] && DataFollows(rest)
  {
    hide DataFollows;
    var items := [Cut] + rest;
    assert items[1..] == rest && items[..0] == [];
    NoItems(values);
  }

  lemma ShiftHarm(items: seq<Item>, values: seq<string>, rest: seq<Item>, next: seq<string>, open: bool)
    requires !HarmfulCut(items, values, 0)
    requires forall i: nat :: i > 0 ==> (HarmfulCut(items, values, i) <==> open && HarmfulCut(rest, next, i - 1))
    ensures (exists i: nat :: HarmfulCut(items, values, i)) <==> open && exists i: nat :: HarmfulCut(rest, next, i)
  {
    hide HarmfulCut;
    if i: nat :| HarmfulCut(items, values, i) {
      assert HarmfulCut(rest, next, i - 1);
    }
    if i: nat :| open && HarmfulCut(rest, next, i) {
      assert HarmfulCut(items, values, i + 1) <==> open && HarmfulCut(rest, next, i);
    }
  }

  // ---------- The consumer's view ----------

  lemma CutReading(parse: string -> Parsed, pieces: seq<string>)
    ensures
      var end := HandleAll(parse, INITIAL, BeforeDone(CutPayloads(Division(pieces), [])));
      var st := FeedAll(parse, INITIAL, pieces);
      st.out == end.out && (st.phase == Errored <==> end.phase == Errored)
  {
    hide Normalize, NormalizeEach, FeedAll, HandleAll, BeforeDone, Payloads, CutPayloads, Division;
    var text := Flat(NormalizeEach(pieces));
    assert "" + text == text;
    FeedAllDrains(parse, INITIAL, pieces);
    ReadingsOf(pieces);
    DrainHandles(parse, INITIAL.(buf := text));
    HandlesBeforeDone(parse, INITIAL.(buf := text), Payloads(text));
    BufIrrelevant(parse, INITIAL, BeforeDone(Payloads(text)), text);
  }

  lemma PlainReading(parse: string -> Parsed, pieces: seq<string>)
    ensures
      var end := HandleAll(parse, INITIAL, BeforeDone(PlainPayloads(Division(pieces), [])));
      var st := Feed(parse, INITIAL, Flat(pieces));
      st.out == end.out && (st.phase == Errored <==> end.phase == Errored)
  {
    hide Normalize, HandleAll, BeforeDone, Payloads, PlainPayloads, Division;
    var text := Normalize(Flat(pieces));
    assert "" + text == text;
    ReadingsOf(pieces);
    DrainHandles(parse, INITIAL.(buf := text));
    HandlesBeforeDone(parse, INITIAL.(buf := text), Payloads(text));
    BufIrrelevant(parse, INITIAL, BeforeDone(Payloads(text)), text);
  }

  ghost predicate SameChunks(parse: string -> Parsed, pieces: seq<string>) {
    FeedAll(parse, INITIAL, pieces).out == Feed(parse, INITIAL, Flat(pieces)).out
  }

  ghost predicate CutsHarm(pieces: seq<string>) {
    exists i: nat :: HarmfulCut(Division(pieces), [], i)
  }

  /** MAIN: how a text is cut into reads changes the chunks, for some meaning of the payloads, if and
      only if a read ends between CR and LF at a harmful place: inside an event, behind a data line of
      it, with another data line to come in it or no blank line to close it, before the stream ends. */
  lemma CutsChangeChunksIff(pieces: seq<string>)
    ensures (exists parse: string -> Parsed :: !SameChunks(parse, pieces)) <==> CutsHarm(pieces)
  {
    hide SameChunks;
    HarmfulIff(Division(pieces), []);
    ReadingsDifferIff(Division(pieces), []);
    if CutsHarm(pieces) {
      HarmShows(pieces);
    } else {
      forall parse: string -> Parsed ensures SameChunks(parse, pieces) {
        HarmlessCuts(parse, pieces);
      }
    }
  }

  /** And then no meaning of the payloads tells the two apart, nor makes one of them fail. */
  lemma HarmlessCuts(parse: string -> Parsed, pieces: seq<string>)
    requires !CutsHarm(pieces)
    ensures SameChunks(parse, pieces)
    ensures FeedAll(parse, INITIAL, pieces).phase == Errored <==> Feed(parse, INITIAL, Flat(pieces)).phase == Errored
  {
    hide Division, PlainPayloads, CutPayloads, HandleAll, FeedAll, Feed, Flat;
    HarmfulIff(Division(pieces), []);
    ReadingsDifferIff(Division(pieces), []);
    CutReading(parse, pieces);
    PlainReading(parse, pieces);
  }

  lemma HarmShows(pieces: seq<string>)
    requires CutsHarm(pieces)
    ensures !SameChunks(ShowPayload, pieces)
  {
    hide Division, PlainPayloads, CutPayloads, HandleAll, FeedAll, Feed, Flat, BeforeDone;
    var plain, cut := PlainPayloads(Division(pieces), []), CutPayloads(Division(pieces), []);
    HarmfulIff(Division(pieces), []);
    ReadingsDifferIff(Division(pieces), []);
    CutReading(ShowPayload, pieces);
    PlainReading(ShowPayload, pieces);
    ShowsAll(INITIAL, plain);
    ShowsAll(INITIAL, cut);
    assert INITIAL.out + Shown(BeforeDone(plain)) == Shown(BeforeDone(plain));
    assert INITIAL.out + Shown(BeforeDone(cut)) == Shown(BeforeDone(cut));
    if Shown(BeforeDone(plain)) == Shown(BeforeDone(cut)) {
      ShownInjective(BeforeDone(plain), BeforeDone(cut));
    }
  }
}
