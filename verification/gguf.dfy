/** The bounded GGUF header reader of `llamacpp-manager/models.ts`. */
module Gguf {
  import opened Options

  type byte = x: int | 0 <= x < 256

  const U32_LIMIT: nat := 0x1_0000_0000
  const U64_LIMIT: nat := 0x1_0000_0000_0000_0000

  // ---------- Little-endian integers ----------

  function Little(bs: seq<byte>): nat {
    if bs == [] then 0 else bs[0] + 256 * Little(bs[1..])
  }

  function LittleBytes(x: nat, k: nat): (bs: seq<byte>)
    ensures |bs| == k
  {
    if k == 0 then [] else [x % 256] + LittleBytes(x / 256, k - 1)
  }

  function Pow256(k: nat): nat {
    if k == 0 then 1 else 256 * Pow256(k - 1)
  }

  lemma {:induction false} LittleRoundTrip(x: nat, k: nat)
    requires x < Pow256(k)
    ensures Little(LittleBytes(x, k)) == x
  {
    if k > 0 {
      LittleRoundTrip(x / 256, k - 1);
      assert LittleBytes(x, k)[1..] == LittleBytes(x / 256, k - 1);
    }
  }

  lemma Widths()
    ensures Pow256(1) == 256 && Pow256(4) == U32_LIMIT && Pow256(8) == U64_LIMIT
  {
    assert Pow256(3) == 0x100_0000;
    assert Pow256(4) == 0x1_0000_0000;
    assert Pow256(5) == 0x100_0000_0000;
    assert Pow256(6) == 0x1_0000_0000_0000;
    assert Pow256(7) == 0x100_0000_0000_0000;
  }

  /** Two's complement reading of a `limit`-sized unsigned value. */
  function Signed(u: nat, limit: nat): int {
    if 2 * u >= limit then u - limit else u
  }

  function Unsigned(i: int, limit: nat): nat
    requires 0 <= 2 * i + limit
  {
    if i < 0 then limit + i else i
  }

  // ---------- Values ----------

  /** Metadata values of the supported types. Floats are kept as their bits. */
  datatype Value =
    | U8(u8: nat) | U32(u32: nat) | I32(i32: int) | F32(bits32: nat)
    | Str(bytes: seq<byte>)
    | U64(u64: nat) | I64(i64: int) | F64(bits64: nat)
    | Arr(inner: nat, elems: seq<Value>)

  function TypeCode(v: Value): nat {
    match v
    case U8(_) => 0
    case U32(_) => 4
    case I32(_) => 5
    case F32(_) => 6
    case Str(_) => 8
    case Arr(_, _) => 9
    case U64(_) => 10
    case I64(_) => 11
    case F64(_) => 12
  }

  ghost predicate WellFormed(v: Value) {
    match v
    case U8(n) => n < 256
    case U32(n) => n < U32_LIMIT
    case I32(i) => -0x8000_0000 <= i < 0x8000_0000
    case F32(b) => b < U32_LIMIT
    case Str(s) => |s| < U64_LIMIT
    case U64(n) => n < U64_LIMIT
    case I64(i) => -0x8000_0000_0000_0000 <= i < 0x8000_0000_0000_0000
    case F64(b) => b < U64_LIMIT
    case Arr(t, es) => t < U32_LIMIT && |es| < U64_LIMIT && forall i :: 0 <= i < |es| ==>
      WellFormed(es[i]) && TypeCode(es[i]) == t
  }

  function Encode(v: Value): (bs: seq<byte>)
    requires WellFormed(v)
    ensures bs != []
    decreases v, 1
  {
    match v
    case U8(n) => [n]
    case U32(n) => LittleBytes(n, 4)
    case I32(i) => LittleBytes(Unsigned(i, U32_LIMIT), 4)
    case F32(b) => LittleBytes(b, 4)
    case Str(s) => LittleBytes(|s|, 8) + s
    case U64(n) => LittleBytes(n, 8)
    case I64(i) => LittleBytes(Unsigned(i, U64_LIMIT), 8)
    case F64(b) => LittleBytes(b, 8)
    case Arr(t, es) => LittleBytes(t, 4) + LittleBytes(|es|, 8) + EncodeAll(es)
  }

  function EncodeAll(es: seq<Value>): seq<byte>
    requires forall i :: 0 <= i < |es| ==> WellFormed(es[i])
    decreases es, 0
  {
    if es == [] then [] else Encode(es[0]) + EncodeAll(es[1..])
  }

  // ---------- The reader ----------

  datatype Number = Whole(int) | Float32(bits32: nat) | Float64(bits64: nat)

  /** What `readValue` hands to its caller: arrays are skipped, not surfaced. */
  datatype Surface = ANumber(n: Number) | AText(s: string) | Undefined
  datatype Read = Read(v: Surface, next: nat)

  function Word(data: seq<byte>, off: nat, k: nat): nat
    requires off + k <= |data|
  {
    Little(data[off..off + k])
  }

  /** A value of a type with no inner type; `decode` is the UTF-8 decoder. */
  function ReadScalar(decode: seq<byte> -> string, data: seq<byte>, off: nat, vtype: nat): (r: Option<Read>)
    requires off <= |data|
    ensures r.Some? ==> off < r.value.next <= |data|
  {
    var n := |data|;
    if vtype == 0 then
      if off + 1 > n then None else Some(Read(ANumber(Whole(Word(data, off, 1))), off + 1))
    else if vtype == 4 then
      if off + 4 > n then None else Some(Read(ANumber(Whole(Word(data, off, 4))), off + 4))
    else if vtype == 5 then
      if off + 4 > n then None else Some(Read(ANumber(Whole(Signed(Word(data, off, 4), U32_LIMIT))), off + 4))
    else if vtype == 6 then
      if off + 4 > n then None else Some(Read(ANumber(Float32(Word(data, off, 4))), off + 4))
    else if vtype == 8 then
      if off + 8 > n then None
      else
        var len := Word(data, off, 8);
        if off + 8 + len > n then None
        else Some(Read(AText(decode(data[off + 8..off + 8 + len])), off + 8 + len))
    else if vtype == 10 then
      if off + 8 > n then None else Some(Read(ANumber(Whole(Word(data, off, 8))), off + 8))
    else if vtype == 11 then
      if off + 8 > n then None else Some(Read(ANumber(Whole(Signed(Word(data, off, 8), U64_LIMIT))), off + 8))
    else if vtype == 12 then
      if off + 8 > n then None else Some(Read(ANumber(Float64(Word(data, off, 8))), off + 8))
    else None
  }

  /** The value of type `vtype` at `off`. The offset returned is past `off` and within the bytes
      read, which is why the recursion ends. */
  function ReadValue(decode: seq<byte> -> string, data: seq<byte>, off: nat, vtype: nat): (r: Option<Read>)
    requires off <= |data|
    ensures r.Some? ==> off < r.value.next <= |data|
    decreases |data| - off, 0
  {
    if vtype != 9 then ReadScalar(decode, data, off, vtype)
    else if off + 12 > |data| then None
    else
      match SkipElements(decode, data, off + 12, Word(data, off, 4), Word(data, off + 4, 8))
      case None => None
      case Some(p) => Some(Read(Undefined, p))
  }

  /** The offset after `count` values of type `inner` starting at `p`. */
  function SkipElements(decode: seq<byte> -> string, data: seq<byte>, p: nat, inner: nat, count: nat): (r: Option<nat>)
    requires p <= |data|
    ensures r.Some? ==> p <= r.value <= |data|
    decreases |data| - p, 1
  {
    if count == 0 then Some(p)
    else if p >= |data| then None
    else
      match ReadValue(decode, data, p, inner)
      case None => None
      case Some(e) => SkipElements(decode, data, e.next, inner, count - 1)
  }

  /** `readValue`: recursive, with a loop over the elements of an array. */
  method ReadValueAt(decode: seq<byte> -> string, buf: array<byte>, off: nat, n: nat, vtype: nat)
    returns (r: Option<Read>)
    requires off <= n <= buf.Length
    ensures r == ReadValue(decode, buf[..n], off, vtype)
    decreases n - off
  {
    ghost var data := buf[..n];
    if vtype == 9 {
      if off + 12 > n { return None; }
      var innerType := Word(buf[..n], off, 4);
      var count := Word(buf[..n], off + 4, 8);
      var p := off + 12;
      var i := 0;
      while i < count
        invariant 0 <= i <= count
        invariant off + 12 <= p <= n
        invariant SkipElements(decode, data, p, innerType, count - i) ==
            SkipElements(decode, data, off + 12, innerType, count)
      {
        if p >= n { return None; }
        var inner := ReadValueAt(decode, buf, p, n, innerType);
        if inner.None? { return None; }
        p := inner.value.next;
        i := i + 1;
      }
      return Some(Read(Undefined, p));
    }
    return ReadScalar(decode, buf[..n], off, vtype);
  }

  datatype Parsed = Parsed(arch: Option<string>, quant: Option<Number>, ctxTrain: Option<Number>,
      nParams: Option<Number>)

  const NO_FIELDS: Parsed := Parsed(None, None, None, None)

  function Store(out: Parsed, key: string, v: Surface): Parsed {
    if key == "general.architecture" then
      if v.AText? then out.(arch := Some(v.s)) else out
    else if key == "general.quantization_version" then
      if v.ANumber? then out.(quant := Some(v.n)) else out
    else if key == "llama.context_length" || key == "general.context_length" then
      if v.ANumber? then out.(ctxTrain := Some(v.n)) else out
    else if key == "general.parameter_count" then
      if v.ANumber? then out.(nParams := Some(v.n)) else out
    else out
  }

  datatype Entry = Entry(key: string, v: Surface, next: nat)

  /** One key/value pair at `off`, or nothing when the bytes run out or the type is unknown. */
  function ReadPair(decode: seq<byte> -> string, data: seq<byte>, off: nat): (r: Option<Entry>)
    requires off <= |data|
    ensures r.Some? ==> off < r.value.next <= |data|
  {
    if off + 8 > |data| then None
    else
      var keyLen := Word(data, off, 8);
      var k := off + 8;
      if k + keyLen > |data| then None
      else if k + keyLen + 4 > |data| then None
      else
        match ReadValue(decode, data, k + keyLen + 4, Word(data, k + keyLen, 4))
        case None => None
        case Some(r) => Some(Entry(decode(data[k..k + keyLen]), r.v, r.next))
  }

  function ParsePairs(decode: seq<byte> -> string, data: seq<byte>, off: nat, left: nat, out: Parsed): Parsed
    requires off <= |data|
    decreases |data| - off
  {
    if left == 0 || off >= |data| then out
    else
      match ReadPair(decode, data, off)
      case None => out
      case Some(e) => ParsePairs(decode, data, e.next, left - 1, Store(out, e.key, e.v))
  }

  const MAGIC: seq<byte> := [0x47, 0x47, 0x55, 0x46]

  function ParseHeader(decode: seq<byte> -> string, data: seq<byte>): Option<Parsed> {
    if |data| < 24 || data[..4] != MAGIC || !(1 <= Word(data, 4, 4) <= 4) then None
    else Some(ParsePairs(decode, data, 24, Word(data, 16, 8), NO_FIELDS))
  }

  const HEADER_READ_BYTES: nat := 65536

  /** `parseGgufHeader` on the `n` bytes that one read put into the fixed buffer. */
  method ParseGgufHeader(decode: seq<byte> -> string, buf: array<byte>, n: nat) returns (r: Option<Parsed>)
    requires n <= buf.Length == HEADER_READ_BYTES
    ensures r == ParseHeader(decode, buf[..n])
  {
    hide ReadValue;
    hide Store;
    hide Little;
    if n < 24 { return None; }
    ghost var data := buf[..n];
    var i := 0;
    while i < 4
      invariant 0 <= i <= 4
      invariant data[..i] == MAGIC[..i]
    {
      if buf[i] != MAGIC[i] {
        assert data[..4][i] != MAGIC[i];
        return None;
      }
      i := i + 1;
    }
    assert MAGIC[..4] == MAGIC;
    var version := Word(buf[..n], 4, 4);
    if version < 1 || version > 4 { return None; }
    var kvCount := Word(buf[..n], 16, 8);
    var off := 24;
    var out := NO_FIELDS;
    var kv := 0;
    while kv < kvCount && off < n
      invariant 0 <= kv <= kvCount && 24 <= off <= n
      invariant ParsePairs(decode, data, off, kvCount - kv, out) == ParsePairs(decode, data, 24, kvCount, NO_FIELDS)
      decreases n - off
    {
      ghost var start := off;
      if off + 8 > n { break; }
      var keyLen := Word(buf[..n], off, 8);
      off := off + 8;
      if off + keyLen > n { break; }
      var key := decode(buf[..n][off..off + keyLen]);
      off := off + keyLen;
      if off + 4 > n { break; }
      var vtype := Word(buf[..n], off, 4);
      off := off + 4;
      var value := ReadValueAt(decode, buf, off, n, vtype);
      if value.None? { break; }
      off := value.value.next;
      assert ReadPair(decode, data, start) == Some(Entry(key, value.value.v, off));
      out := Store(out, key, value.value.v);
      kv := kv + 1;
    }
    r := Some(out);
  }

  // ---------- Reading what was written, from any prefix ----------

  /** From `off` on, `data` holds `e` or as much of it as fits. */
  ghost predicate Holds(data: seq<byte>, off: nat, e: seq<byte>) {
    off <= |data| && forall i :: 0 <= i < |e| && off + i < |data| ==> data[off + i] == e[i]
  }

  lemma HoldsParts(data: seq<byte>, off: nat, a: seq<byte>, b: seq<byte>)
    requires Holds(data, off, a + b)
    ensures Holds(data, off, a)
    ensures off + |a| <= |data| ==> data[off..off + |a|] == a && Holds(data, off + |a|, b)
  {
    assert forall i :: 0 <= i < |a| ==> (a + b)[i] == a[i];
    forall i | 0 <= i < |b| && off + |a| + i < |data|
      ensures data[off + |a| + i] == b[i]
    {
      assert (a + b)[|a| + i] == b[i];
    }
  }

  lemma HoldsAll(data: seq<byte>, off: nat, e: seq<byte>)
    requires Holds(data, off, e) && off + |e| <= |data|
    ensures data[off..off + |e|] == e
  {
  }

  lemma WordAt(data: seq<byte>, off: nat, x: nat, k: nat)
    requires x < Pow256(k) && off + k <= |data| && Holds(data, off, LittleBytes(x, k))
    ensures Word(data, off, k) == x
  {
    HoldsAll(data, off, LittleBytes(x, k));
    LittleRoundTrip(x, k);
  }

  function SurfaceOf(decode: seq<byte> -> string, v: Value): Surface {
    match v
    case U8(n) => ANumber(Whole(n))
    case U32(n) => ANumber(Whole(n))
    case I32(i) => ANumber(Whole(i))
    case F32(b) => ANumber(Float32(b))
    case Str(s) => AText(decode(s))
    case U64(n) => ANumber(Whole(n))
    case I64(i) => ANumber(Whole(i))
    case F64(b) => ANumber(Float64(b))
    case Arr(_, _) => Undefined
  }

  lemma ReadScalarEncoded(decode: seq<byte> -> string, data: seq<byte>, off: nat, v: Value)
    requires WellFormed(v) && !v.Arr? && Holds(data, off, Encode(v))
    ensures ReadScalar(decode, data, off, TypeCode(v)) ==
            if off + |Encode(v)| <= |data| then Some(Read(SurfaceOf(decode, v), off + |Encode(v)|)) else None
  {
    Widths();
    match v
    case U8(n) =>
      assert LittleBytes(n, 1) == [n];
      if off + 1 <= |data| { WordAt(data, off, n, 1); }
    case U32(n) => if off + 4 <= |data| { WordAt(data, off, n, 4); }
    case I32(i) => if off + 4 <= |data| { WordAt(data, off, Unsigned(i, U32_LIMIT), 4); }
    case F32(b) => if off + 4 <= |data| { WordAt(data, off, b, 4); }
    case U64(n) => if off + 8 <= |data| { WordAt(data, off, n, 8); }
    case I64(i) => if off + 8 <= |data| { WordAt(data, off, Unsigned(i, U64_LIMIT), 8); }
    case F64(b) => if off + 8 <= |data| { WordAt(data, off, b, 8); }
    case Str(s) => ReadStringEncoded(decode, data, off, s);
  }

  lemma ReadStringEncoded(decode: seq<byte> -> string, data: seq<byte>, off: nat, s: seq<byte>)
    requires |s| < U64_LIMIT && Holds(data, off, LittleBytes(|s|, 8) + s)
    ensures ReadScalar(decode, data, off, 8) ==
            if off + 8 + |s| <= |data| then Some(Read(AText(decode(s)), off + 8 + |s|)) else None
  {
    HoldsParts(data, off, LittleBytes(|s|, 8), s);
    if off + 8 <= |data| {
      Widths();
      WordAt(data, off, |s|, 8);
      ReadStringBody(decode, data, off, s);
    }
  }

  lemma ReadStringBody(decode: seq<byte> -> string, data: seq<byte>, off: nat, s: seq<byte>)
    requires off + 8 <= |data| && Word(data, off, 8) == |s| && Holds(data, off + 8, s)
    ensures ReadScalar(decode, data, off, 8) ==
            if off + 8 + |s| <= |data| then Some(Read(AText(decode(s)), off + 8 + |s|)) else None
  {
    if off + 8 + |s| <= |data| {
      HoldsAll(data, off + 8, s);
    }
  }

  /** Reading the encoding of any value, nested arrays included, gives the value and the offset
      just past it when all of it is there, and nothing when some of it is cut off. */
  lemma {:induction false} ReadValueEncoded(decode: seq<byte> -> string, data: seq<byte>, off: nat, v: Value)
    requires WellFormed(v) && Holds(data, off, Encode(v))
    ensures ReadValue(decode, data, off, TypeCode(v)) ==
            if off + |Encode(v)| <= |data| then Some(Read(SurfaceOf(decode, v), off + |Encode(v)|)) else None
    decreases v, 1
  {
    if !v.Arr? {
      ReadScalarEncoded(decode, data, off, v);
    } else {
      Widths();
      var t, count, body := LittleBytes(v.inner, 4), LittleBytes(|v.elems|, 8), EncodeAll(v.elems);
      assert Encode(v) == t + (count + body);
      HoldsParts(data, off, t, count + body);
      if off + 12 <= |data| {
        HoldsParts(data, off + 4, count, body);
        WordAt(data, off, v.inner, 4);
        WordAt(data, off + 4, |v.elems|, 8);
        SkipEncoded(decode, data, off + 12, v.inner, v.elems);
      }
    }
  }

  lemma {:induction false} SkipEncoded(decode: seq<byte> -> string, data: seq<byte>, p: nat, inner: nat, es: seq<Value>)
    requires forall i :: 0 <= i < |es| ==> WellFormed(es[i]) && TypeCode(es[i]) == inner
    requires Holds(data, p, EncodeAll(es))
    ensures SkipElements(decode, data, p, inner, |es|) ==
            if p + |EncodeAll(es)| <= |data| then Some(p + |EncodeAll(es)|) else None
    decreases es, 0
  {
    if es != [] {
      var first, rest := Encode(es[0]), EncodeAll(es[1..]);
      HoldsParts(data, p, first, rest);
      if p < |data| {
        ReadValueEncoded(decode, data, p, es[0]);
        if p + |first| <= |data| {
          SkipEncoded(decode, data, p + |first|, inner, es[1..]);
        }
      }
    }
  }

  // ---------- Whole headers ----------

  datatype Pair = Pair(key: seq<byte>, value: Value)

  ghost predicate WellFormedPairs(pairs: seq<Pair>) {
    forall i :: 0 <= i < |pairs| ==> |pairs[i].key| < U64_LIMIT && WellFormed(pairs[i].value)
  }

  function EncodePair(p: Pair): (bs: seq<byte>)
    requires WellFormed(p.value)
    ensures bs != []
  {
    LittleBytes(|p.key|, 8) + (p.key + (LittleBytes(TypeCode(p.value), 4) + Encode(p.value)))
  }

  function EncodePairs(pairs: seq<Pair>): seq<byte>
    requires WellFormedPairs(pairs)
  {
    if pairs == [] then [] else EncodePair(pairs[0]) + EncodePairs(pairs[1..])
  }

  function EncodeFile(version: nat, tensors: nat, pairs: seq<Pair>, tail: seq<byte>): seq<byte>
    requires WellFormedPairs(pairs)
  {
    MAGIC + (LittleBytes(version, 4)
      + (LittleBytes(tensors, 8) + (LittleBytes(|pairs|, 8) + (EncodePairs(pairs) + tail))))
  }

  lemma ReadPairEncoded(decode: seq<byte> -> string, data: seq<byte>, off: nat, p: Pair)
    requires |p.key| < U64_LIMIT && WellFormed(p.value) && Holds(data, off, EncodePair(p))
    ensures ReadPair(decode, data, off) ==
            if off + |EncodePair(p)| <= |data|
            then Some(Entry(decode(p.key), SurfaceOf(decode, p.value), off + |EncodePair(p)|)) else None
  {
    hide ReadValue, Encode, SurfaceOf, Word, LittleBytes;
    var body := Encode(p.value);
    HoldsParts(data, off, LittleBytes(|p.key|, 8), p.key + (LittleBytes(TypeCode(p.value), 4) + body));
    if off + 8 <= |data| {
      assert Word(data, off, 8) == |p.key| by {
        Widths();
        WordAt(data, off, |p.key|, 8);
      }
      HoldsParts(data, off + 8, p.key, LittleBytes(TypeCode(p.value), 4) + body);
      var k := off + 8 + |p.key|;
      if k <= |data| {
        HoldsParts(data, k, LittleBytes(TypeCode(p.value), 4), body);
        if k + 4 <= |data| {
          assert Word(data, k, 4) == TypeCode(p.value) by {
            Widths();
            WordAt(data, k, TypeCode(p.value), 4);
          }
          ReadValueEncoded(decode, data, k + 4, p.value);
        }
      }
    }
  }

  /** The pairs that lie wholly within the first `room` bytes of their encoding. */
  function WholePairs(pairs: seq<Pair>, room: int): (whole: seq<Pair>)
    requires WellFormedPairs(pairs)
    ensures whole <= pairs && WellFormedPairs(whole)
  {
    if pairs == [] || |EncodePair(pairs[0])| > room then []
    else [pairs[0]] + WholePairs(pairs[1..], room - |EncodePair(pairs[0])|)
  }

  /** `WholePairs` is the longest prefix of the pairs whose encoding fits. */
  lemma {:induction false} WholePairsLongest(pairs: seq<Pair>, room: nat)
    requires WellFormedPairs(pairs)
    ensures
      var k := |WholePairs(pairs, room)|;
      && |EncodePairs(pairs[..k])| <= room
      && (k < |pairs| ==> |EncodePairs(pairs[..k + 1])| > room)
  {
    hide EncodePair;
    if pairs != [] {
      var len := |EncodePair(pairs[0])|;
      if len <= room {
        WholePairsLongest(pairs[1..], room - len);
        var k := |WholePairs(pairs[1..], room - len)|;
        assert pairs[..k + 1][1..] == pairs[1..][..k];
        if k + 1 < |pairs| {
          assert pairs[..k + 2][1..] == pairs[1..][..k + 1];
        }
      } else {
        assert pairs[..1] == [pairs[0]];
        assert EncodePairs([pairs[0]]) == EncodePair(pairs[0]) + EncodePairs([]);
      }
    }
  }

  function StoreAll(decode: seq<byte> -> string, out: Parsed, pairs: seq<Pair>): Parsed
    decreases |pairs|
  {
    if pairs == [] then out
    else StoreAll(decode, Store(out, decode(pairs[0].key), SurfaceOf(decode, pairs[0].value)), pairs[1..])
  }

  lemma StoreAllCons(decode: seq<byte> -> string, out: Parsed, p: Pair, rest: seq<Pair>)
    ensures StoreAll(decode, out, [p] + rest) ==
        StoreAll(decode, Store(out, decode(p.key), SurfaceOf(decode, p.value)), rest)
  {
    assert ([p] + rest)[1..] == rest;
  }

  lemma ParsePairsStep(decode: seq<byte> -> string, data: seq<byte>, off: nat, left: nat, out: Parsed, e: Option<Entry>)
    requires off < |data| && left > 0 && ReadPair(decode, data, off) == e
    ensures ParsePairs(decode, data, off, left, out) ==
            if e.None? then out
            else ParsePairs(decode, data, e.value.next, left - 1, Store(out, e.value.key, e.value.v))
  {
  }

  lemma HoldsFirstPair(data: seq<byte>, off: nat, pairs: seq<Pair>)
    requires pairs != [] && WellFormedPairs(pairs) && Holds(data, off, EncodePairs(pairs))
    ensures Holds(data, off, EncodePair(pairs[0]))
    ensures off + |EncodePair(pairs[0])| <= |data| ==>
        Holds(data, off + |EncodePair(pairs[0])|, EncodePairs(pairs[1..]))
  {
    HoldsParts(data, off, EncodePair(pairs[0]), EncodePairs(pairs[1..]));
  }

  lemma {:induction false} ParsePairsEncoded(
    decode: seq<byte> -> string, data: seq<byte>, off: nat, pairs: seq<Pair>, out: Parsed)
    requires WellFormedPairs(pairs) && Holds(data, off, EncodePairs(pairs))
    ensures ParsePairs(decode, data, off, |pairs|, out) == StoreAll(decode, out, WholePairs(pairs, |data| - off))
    decreases |pairs|
  {
    hide EncodePair;
    hide ReadPair;
    hide Store;
    if pairs != [] && off < |data| {
      var p, after := pairs[0], off + |EncodePair(pairs[0])|;
      var next := Store(out, decode(p.key), SurfaceOf(decode, p.value));
      HoldsFirstPair(data, off, pairs);
      ReadPairEncoded(decode, data, off, p);
      if after <= |data| {
        ParsePairsStep(decode, data, off, |pairs|, out, Some(Entry(decode(p.key), SurfaceOf(decode, p.value), after)));
        ParsePairsEncoded(decode, data, after, pairs[1..], next);
        StoreAllCons(decode, out, p, WholePairs(pairs[1..], |data| - after));
      } else {
        ParsePairsStep(decode, data, off, |pairs|, out, None);
      }
    }
  }

  // ---------- What the fields are ----------

  /** The value of the last of `pairs` whose key is one of `keys` and that `accept`s. */
  function LastUnder(
    decode: seq<byte> -> string, keys: set<string>, accept: Surface -> bool, pairs: seq<Pair>): Option<Surface> {
    if pairs == [] then None
    else
      var last := pairs[|pairs| - 1];
      var v := SurfaceOf(decode, last.value);
      if decode(last.key) in keys && accept(v) then Some(v)
      else LastUnder(decode, keys, accept, pairs[..|pairs| - 1])
  }

  const IS_TEXT := (v: Surface) => v.AText?
  const IS_NUMBER := (v: Surface) => v.ANumber?

  function TextField(v: Option<Surface>): Option<string> {
    match v
    case Some(AText(s)) => Some(s)
    case _ => None
  }

  function NumberField(v: Option<Surface>): Option<Number> {
    match v
    case Some(ANumber(n)) => Some(n)
    case _ => None
  }

  /** The fields that `pairs` define, the last acceptable pair winning. */
  function Fields(decode: seq<byte> -> string, pairs: seq<Pair>): Parsed {
    Parsed(
      TextField(LastUnder(decode, {"general.architecture"}, IS_TEXT, pairs)),
      NumberField(LastUnder(decode, {"general.quantization_version"}, IS_NUMBER, pairs)),
      NumberField(LastUnder(decode, {"llama.context_length", "general.context_length"}, IS_NUMBER, pairs)),
      NumberField(LastUnder(decode, {"general.parameter_count"}, IS_NUMBER, pairs)))
  }

  lemma {:induction false} StoreAllSnoc(decode: seq<byte> -> string, out: Parsed, pairs: seq<Pair>, p: Pair)
    ensures StoreAll(decode, out, pairs + [p]) ==
        Store(StoreAll(decode, out, pairs), decode(p.key), SurfaceOf(decode, p.value))
    decreases |pairs|
  {
    if pairs == [] {
      assert (pairs + [p])[1..] == [];
    } else {
      assert (pairs + [p])[1..] == pairs[1..] + [p];
      StoreAllSnoc(decode, Store(out, decode(pairs[0].key), SurfaceOf(decode, pairs[0].value)), pairs[1..], p);
    }
  }

  lemma {:induction false} LastWins(decode: seq<byte> -> string, pairs: seq<Pair>)
    ensures StoreAll(decode, NO_FIELDS, pairs) == Fields(decode, pairs)
    decreases |pairs|
  {
    if pairs != [] {
      var front, last := pairs[..|pairs| - 1], pairs[|pairs| - 1];
      assert pairs == front + [last];
      StoreAllSnoc(decode, NO_FIELDS, front, last);
      LastWins(decode, front);
    }
  }

  /** MAIN: for any list of pairs, whatever follows it, reading the first `n` bytes of the file
      recovers exactly the fields of the pairs lying wholly inside those bytes. */
  lemma ParsePrefix(decode: seq<byte> -> string, version: nat, tensors: nat, pairs: seq<Pair>, tail: seq<byte>, n: nat)
    requires WellFormedPairs(pairs) && |pairs| < U64_LIMIT
    requires 1 <= version <= 4 && tensors < U64_LIMIT
    requires n <= |EncodeFile(version, tensors, pairs, tail)|
    ensures ParseHeader(decode, EncodeFile(version, tensors, pairs, tail)[..n]) ==
            if n < 24 then None else Some(Fields(decode, WholePairs(pairs, n - 24)))
  {
    hide ParsePairs;
    hide EncodePairs;
    hide Fields;
    hide StoreAll;
    if n >= 24 {
      var data := EncodeFile(version, tensors, pairs, tail)[..n];
      Widths();
      var v, t, k, body := LittleBytes(version, 4), LittleBytes(tensors, 8), LittleBytes(|pairs|, 8),
        EncodePairs(pairs);
      assert Holds(data, 0, MAGIC + (v + (t + (k + (body + tail)))));
      HoldsParts(data, 0, MAGIC, v + (t + (k + (body + tail))));
      HoldsParts(data, 4, v, t + (k + (body + tail)));
      HoldsParts(data, 8, t, k + (body + tail));
      HoldsParts(data, 16, k, body + tail);
      HoldsParts(data, 24, body, tail);
      assert data[..4] == data[0..4] == MAGIC;
      WordAt(data, 4, version, 4);
      WordAt(data, 16, |pairs|, 8);
      ParsePairsEncoded(decode, data, 24, pairs, NO_FIELDS);
      LastWins(decode, WholePairs(pairs, n - 24));
    }
  }
}
