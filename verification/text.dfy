/** Strings as the two runtimes see them: whitespace classes, trimming, splitting and joining. */
module Text {

  /** What `String.prototype.trim` of ECMAScript removes. */
  predicate JsSpace(c: char) {
    var k := c as int;
    || 9 <= k <= 13 || k == 32 || k == 0xA0 || k == 0x1680 || 0x2000 <= k <= 0x200A
    || k == 0x2028 || k == 0x2029 || k == 0x202F || k == 0x205F || k == 0x3000 || k == 0xFEFF
  }

  /** What `str.strip()` and `\s` of Python treat as whitespace. */
  predicate PySpace(c: char) {
    var k := c as int;
    || 9 <= k <= 13 || 28 <= k <= 32 || k == 0x85 || k == 0xA0 || k == 0x1680 || 0x2000 <= k <= 0x200A
    || k == 0x2028 || k == 0x2029 || k == 0x202F || k == 0x205F || k == 0x3000
  }

  function TrimStart(drop: char -> bool, s: string): string {
    if s != "" && drop(s[0]) then TrimStart(drop, s[1..]) else s
  }

  function TrimEnd(drop: char -> bool, s: string): string {
    if s != "" && drop(s[|s| - 1]) then TrimEnd(drop, s[..|s| - 1]) else s
  }

  function Trim(drop: char -> bool, s: string): string {
    TrimEnd(drop, TrimStart(drop, s))
  }

  /** Both ends of `s` survive trimming (or there is nothing to trim). */
  predicate Trimmed(drop: char -> bool, s: string) {
    s == "" || (!drop(s[0]) && !drop(s[|s| - 1]))
  }

  lemma {:induction false} TrimStartShape(drop: char -> bool, s: string)
    ensures |TrimStart(drop, s)| <= |s| && TrimStart(drop, s) == s[|s| - |TrimStart(drop, s)|..]
    ensures TrimStart(drop, s) != "" ==> !drop(TrimStart(drop, s)[0])
  {
    if s != "" && drop(s[0]) {
      TrimStartShape(drop, s[1..]);
    }
  }

  lemma {:induction false} TrimEndShape(drop: char -> bool, s: string)
    ensures |TrimEnd(drop, s)| <= |s| && TrimEnd(drop, s) == s[..|TrimEnd(drop, s)|]
    ensures TrimEnd(drop, s) != "" ==> !drop(TrimEnd(drop, s)[|TrimEnd(drop, s)| - 1])
  {
    if s != "" && drop(s[|s| - 1]) {
      TrimEndShape(drop, s[..|s| - 1]);
    }
  }

  /** A trimmed string has nothing left to trim. */
  lemma TrimIsTrimmed(drop: char -> bool, s: string)
    ensures Trimmed(drop, Trim(drop, s))
    ensures |Trim(drop, s)| <= |s|
    ensures forall c :: c in Trim(drop, s) ==> c in s
  {
    TrimStartShape(drop, s);
    TrimEndShape(drop, TrimStart(drop, s));
  }

  function Flat(pieces: seq<string>): string {
    if pieces == [] then "" else pieces[0] + Flat(pieces[1..])
  }

  lemma FlatCons(pieces: seq<string>)
    requires pieces != []
    ensures Flat(pieces) == pieces[0] + Flat(pieces[1..])
  {
  }

  lemma {:induction false} FlatAppend(a: seq<string>, b: seq<string>)
    ensures Flat(a + b) == Flat(a) + Flat(b)
  {
    if a == [] {
      assert a + b == b;
    } else {
      FlatCons(a + b);
      FlatCons(a);
      hide Flat;
      FlatAppend(a[1..], b);
      assert (a + b)[1..] == a[1..] + b && (a + b)[0] == a[0];
      assert a[0] + (Flat(a[1..]) + Flat(b)) == (a[0] + Flat(a[1..])) + Flat(b);
    }
  }

  /** `parts.join(sep)`. */
  function Join(sep: string, parts: seq<string>): string {
    if parts == [] then "" else if |parts| == 1 then parts[0]
    else parts[0] + sep + Join(sep, parts[1..])
  }

  /** Index of the first line feed, or -1. */
  function FirstNewline(s: string): (r: int)
    ensures -1 <= r < |s|
    ensures r >= 0 ==> s[r] == '\n' && '\n' !in s[..r]
    ensures r == -1 ==> '\n' !in s
  {
    if s == "" then -1
    else if s[0] == '\n' then 0
    else
      var k := FirstNewline(s[1..]);
      assert k >= 0 ==> s[..k + 1] == [s[0]] + s[1..][..k];
      if k == -1 then -1 else k + 1
  }

  /** `s.split("\n")`. */
  function Lines(s: string): seq<string>
    decreases |s|
  {
    var k := FirstNewline(s);
    if k == -1 then [s] else [s[..k]] + Lines(s[k + 1..])
  }

  function AsciiLowerChar(c: char): char {
    if 'A' <= c <= 'Z' then (c as int + 32) as char else c
  }

  function AsciiUpperChar(c: char): char {
    if 'a' <= c <= 'z' then (c as int - 32) as char else c
  }

  function Lower(s: string): string {
    seq(|s|, i requires 0 <= i < |s| => AsciiLowerChar(s[i]))
  }

  function Upper(s: string): string {
    seq(|s|, i requires 0 <= i < |s| => AsciiUpperChar(s[i]))
  }
}
