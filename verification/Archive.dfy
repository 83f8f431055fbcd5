/**
 * The meaning of a binary stream: bytes with a read and a write offset, the
 * typed values written to it, the version stamp, and the registry it is kept
 * in.  The stream object itself is `RegStream.RegStream`.
 */
module Archive {

  type Byte = b: int | 0 <= b < 256

  /** `data` is the whole buffer; a stream without a buffer has none. */
  datatype Stream = Stream(data: seq<Byte>, r: nat, w: nat, dirty: bool)

  const FRESH := Stream([], 0, 0, false)

  function Zeros(n: nat): seq<Byte> {
    seq(n, _ => 0)
  }

  /** What every write leaves behind: the write offset strictly inside the buffer. */
  predicate HasRoom(s: Stream) {
    s.w < |s.data| || s.w == |s.data| == 0
  }

  function Capacity(csize: nat, size: nat): nat {
    (csize + size + 1024) / 1024 * 1024
  }

  /** The buffer grown by at least `size` bytes; everything in it stays. */
  function Grown(s: Stream, size: nat): Stream {
    s.(data := s.data + Zeros(Capacity(|s.data|, size) - |s.data|))
  }

  function Overlay(data: seq<Byte>, at: nat, bs: seq<Byte>): seq<Byte>
    requires at + |bs| <= |data|
  {
    data[..at] + bs + data[at + |bs|..]
  }

  lemma OverlayJoin(data: seq<Byte>, at: nat, a: seq<Byte>, b: seq<Byte>)
    requires at + |a| + |b| <= |data|
    ensures Overlay(Overlay(data, at, a), at + |a|, b) == Overlay(data, at, a + b)
  {
  }

  function Written(s: Stream, bs: seq<Byte>): Stream
    requires HasRoom(s)
  {
    var g := if s.w + |bs| >= |s.data| then Grown(s, s.w + |bs| - |s.data|) else s;
    g.(data := Overlay(g.data, s.w, bs), w := s.w + |bs|, dirty := true)
  }

  function BackedUp(s: Stream, size: int): Stream {
    if s.r - size >= 0 then s.(r := s.r - size) else s
  }

  /** A result, or the stream as the exception leaves it. */
  datatype Outcome<T> = Got(value: T, s: Stream) | Throws(s: Stream)

  function Fetch(s: Stream, n: nat): Outcome<seq<Byte>> {
    if s.r + n >= |s.data| then Throws(s) else Got(s.data[s.r..s.r + n], s.(r := s.r + n))
  }

  /** A write appends to what was written, keeps what is still to be read, and
      grows the buffer by whole kilobytes when it would be filled. */
  lemma WriteAppends(s: Stream, bs: seq<Byte>)
    requires HasRoom(s)
    ensures var s' := Written(s, bs);
            && HasRoom(s') && s'.r == s.r && s'.w == s.w + |bs|
            && s'.data[..s'.w] == s.data[..s.w] + bs
            && |s'.data| == (if s'.w < |s.data| then |s.data| else (s'.w + 1024) / 1024 * 1024)
            && s'.w < |s'.data|
  {
  }

  /** Two writes are one: neither the bytes nor the size of the buffer tell how
      the bytes were cut up. */
  lemma WritesJoin(s: Stream, a: seq<Byte>, b: seq<Byte>)
    requires HasRoom(s)
    ensures HasRoom(Written(s, a)) && Written(Written(s, a), b) == Written(s, a + b)
  {
    hide Written, Overlay;
    WriteAppends(s, a);
    var once, twice := Written(s, a + b), Written(Written(s, a), b);
    WriteSize(s, a);
    WriteSize(s, a + b);
    WriteSize(Written(s, a), b);
    Kilobytes(s.w + |a|, |b|, |s.data|);
    forall i | 0 <= i < |once.data|
      ensures once.data[i] == twice.data[i]
    {
      WrittenAt(s, a, i);
      WrittenAt(s, a + b, i);
      WrittenAt(Written(s, a), b, i);
    }
    assert once.data == twice.data;
  }

  function NewSize(cap: nat, w: nat): nat {
    if w < cap then cap else (w + 1024) / 1024 * 1024
  }

  lemma WriteSize(s: Stream, bs: seq<Byte>)
    requires HasRoom(s)
    ensures |Written(s, bs).data| == NewSize(|s.data|, s.w + |bs|)
    ensures Written(s, bs) == Stream(Written(s, bs).data, s.r, s.w + |bs|, true)
  {
  }

  lemma Kilobytes(w: nat, n: nat, cap: nat)
    ensures NewSize(NewSize(cap, w), w + n) == NewSize(cap, w + n)
  {
  }

  /** A byte of the buffer after a write: written just now, there before, or zero. */
  lemma WrittenAt(s: Stream, bs: seq<Byte>, i: nat)
    requires HasRoom(s)
    ensures i < |Written(s, bs).data| ==>
              Written(s, bs).data[i] == if s.w <= i < s.w + |bs| then bs[i - s.w] else if i < |s.data| then s.data[i] else 0
  {
  }

  // --------------------------------------------------- numbers, byte by byte

  function Pow256(k: nat): nat {
    if k == 0 then 1 else 256 * Pow256(k - 1)
  }

  /** The `k` bytes of a number, lowest first. */
  function Le(n: nat, k: nat): (bs: seq<Byte>)
    ensures |bs| == k
  {
    if k == 0 then [] else [n % 256] + Le(n / 256, k - 1)
  }

  function UnLe(bs: seq<Byte>): nat {
    if bs == [] then 0 else bs[0] + 256 * UnLe(bs[1..])
  }

  lemma {:induction false} LeRoundTrip(n: nat, k: nat)
    requires n < Pow256(k)
    ensures UnLe(Le(n, k)) == n
  {
    if k > 0 {
      LeRoundTrip(n / 256, k - 1);
      assert Le(n, k)[1..] == Le(n / 256, k - 1);
    }
  }

  lemma {:induction false} UnLeBounded(bs: seq<Byte>)
    ensures UnLe(bs) < Pow256(|bs|)
  {
    if bs != [] {
      UnLeBounded(bs[1..]);
    }
  }

  /** Two's complement in `k` bytes. */
  function Wrap(i: int, k: nat): int {
    if i < 0 then i + Pow256(k) else i
  }

  function Unwrap(n: nat, k: nat): int {
    if 2 * n >= Pow256(k) then n - Pow256(k) else n
  }

  predicate FitsSigned(i: int, k: nat) {
    0 <= 2 * i + Pow256(k) && 2 * i < Pow256(k)
  }

  // ------------------------------------------------------------------- values

  const LONG: nat := 4
  const SHORT: nat := 2
  const BYTE: nat := 1

  /** The types with stream operators.  `Raw` stands for a float, a double or a
      GUID, copied as it is; a `Text` is a wide string of 16-bit units. */
  datatype Value =
    | Long(i: int) | ULong(n: nat) | Short(i: int) | UShort(n: nat) | Char(i: int) | UChar(n: nat)
    | Bool(b: bool) | Raw(bytes: seq<Byte>) | Text(units: seq<nat>)

  datatype Type = LongT | ULongT | ShortT | UShortT | CharT | UCharT | BoolT | RawT(size: nat) | TextT

  function TypeOf(v: Value): Type {
    match v
    case Long(_) => LongT
    case ULong(_) => ULongT
    case Short(_) => ShortT
    case UShort(_) => UShortT
    case Char(_) => CharT
    case UChar(_) => UCharT
    case Bool(_) => BoolT
    case Raw(bytes) => RawT(|bytes|)
    case Text(_) => TextT
  }

  const NUL: nat := 0

  /** The range of each C++ type; the byte length of a string fits its prefix. */
  predicate Valid(v: Value) {
    match v
    case Long(i) => FitsSigned(i, LONG)
    case ULong(n) => n < Pow256(LONG)
    case Short(i) => FitsSigned(i, SHORT)
    case UShort(n) => n < Pow256(SHORT)
    case Char(i) => FitsSigned(i, BYTE)
    case UChar(n) => n < Pow256(BYTE)
    case Bool(_) => true
    case Raw(_) => true
    case Text(units) => 2 * (|units| + 1) < Pow256(LONG) && forall i :: 0 <= i < |units| ==> units[i] < Pow256(SHORT)
  }

  function UnitBytes(units: seq<nat>): (bs: seq<Byte>)
    ensures |bs| == 2 * |units|
  {
    if units == [] then [] else Le(units[0], SHORT) + UnitBytes(units[1..])
  }

  function Encode(v: Value): seq<Byte>
    requires Valid(v)
  {
    match v
    case Long(i) => Le(Wrap(i, LONG), LONG)
    case ULong(n) => Le(n, LONG)
    case Short(i) => Le(Wrap(i, SHORT), SHORT)
    case UShort(n) => Le(n, SHORT)
    case Char(i) => Le(Wrap(i, BYTE), BYTE)
    case UChar(n) => Le(n, BYTE)
    case Bool(b) => [if b then 1 else 0]
    case Raw(bytes) => bytes
    case Text(units) => Le(2 * (|units| + 1), LONG) + UnitBytes(units + [NUL])
  }

  /** A zero-terminated wide string in a buffer. */
  function Units(bs: seq<Byte>): seq<nat> {
    if |bs| < 2 || UnLe(bs[..2]) == NUL then [] else [UnLe(bs[..2])] + Units(bs[2..])
  }

  function Size(t: Type): nat {
    match t
    case LongT | ULongT | TextT => LONG
    case ShortT | UShortT => SHORT
    case CharT | UCharT | BoolT => BYTE
    case RawT(size) => size
  }

  function FromBytes(t: Type, bs: seq<Byte>): Value
    requires !t.TextT? && |bs| == Size(t)
  {
    match t
    case LongT => Long(Unwrap(UnLe(bs), LONG))
    case ULongT => ULong(UnLe(bs))
    case ShortT => Short(Unwrap(UnLe(bs), SHORT))
    case UShortT => UShort(UnLe(bs))
    case CharT => Char(Unwrap(UnLe(bs), BYTE))
    case UCharT => UChar(UnLe(bs))
    case BoolT => Bool(bs[0] != 0)
    case RawT(_) => Raw(bs)
  }

  /** The extraction operators. */
  function Decode(s: Stream, t: Type): Outcome<Value> {
    match Fetch(s, Size(t))
    case Throws(s1) => Throws(s1)
    case Got(bs, s1) =>
      if !t.TextT? then Got(FromBytes(t, bs), s1)
      else if UnLe(bs) == 0 then Got(Text([]), s1)
      else match Fetch(s1, UnLe(bs))
        case Throws(s2) => Throws(s2)
        case Got(body, s2) => Got(Text(Units(body)), s2)
  }

  // ------------------------------------------------------- the stored format

  /** The bytes of a number of four, two or one bytes, lowest first, a negative
      one in two's complement. */
  lemma NumbersAreLittleEndian(n: nat, i: int)
    ensures n < 0x1_0000_0000 ==>
              Valid(ULong(n)) && Encode(ULong(n)) == [n % 256, n / 0x100 % 256, n / 0x1_0000 % 256, n / 0x100_0000]
    ensures n < 0x1_0000 ==> Valid(UShort(n)) && Encode(UShort(n)) == [n % 256, n / 256]
    ensures n < 0x100 ==> Valid(UChar(n)) && Encode(UChar(n)) == [n]
    ensures -0x8000_0000 <= i < 0x8000_0000 ==>
              Valid(Long(i)) && Encode(Long(i)) == Le(if i < 0 then i + 0x1_0000_0000 else i, 4)
    ensures -0x8000 <= i < 0x8000 ==> Valid(Short(i)) && Encode(Short(i)) == Le(if i < 0 then i + 0x1_0000 else i, 2)
    ensures -0x80 <= i < 0x80 ==> Valid(Char(i)) && Encode(Char(i)) == [if i < 0 then i + 0x100 else i]
    ensures Encode(Bool(true)) == [1] && Encode(Bool(false)) == [0]
  {
    Powers();
    if n < 0x1_0000_0000 {
      FourBytes(n);
    }
    if n < 0x1_0000 {
      TwoBytes(n);
    }
    assert n < 0x100 ==> Le(n, 1) == [n % 256] + Le(n / 256, 0);
    if -0x80 <= i < 0x80 {
      var w := Wrap(i, 1);
      assert Le(w, 1) == [w % 256] + Le(w / 256, 0);
    }
  }

  lemma Powers()
    ensures Pow256(1) == 0x100 && Pow256(2) == 0x1_0000 && Pow256(4) == 0x1_0000_0000
  {
    assert Pow256(2) == 256 * Pow256(1) && Pow256(3) == 256 * Pow256(2) && Pow256(4) == 256 * Pow256(3);
  }

  lemma TwoBytes(n: nat)
    requires n < 0x1_0000
    ensures Le(n, 2) == [n % 256, n / 256]
  {
    assert Le(n, 2) == [n % 256] + Le(n / 256, 1);
    assert Le(n / 256, 1) == [n / 256 % 256] + Le(n / 256 / 256, 0);
  }

  lemma FourBytes(n: nat)
    requires n < 0x1_0000_0000
    ensures Le(n, 4) == [n % 256, n / 0x100 % 256, n / 0x1_0000 % 256, n / 0x100_0000]
  {
    TwoBytes(n / 0x1_0000);
    assert Le(n, 4) == [n % 256] + Le(n / 256, 3);
    assert Le(n / 256, 3) == [n / 256 % 256] + Le(n / 256 / 256, 2);
    assert n / 256 / 256 == n / 0x1_0000 && n / 0x1_0000 / 256 == n / 0x100_0000;
  }

  /** A string is stored as the number of its bytes, terminator included, then
      its units, two bytes each, then two zero bytes. */
  lemma TextLayout(units: seq<nat>, k: nat)
    requires Valid(Text(units))
    ensures var bs := Encode(Text(units));
            && |bs| == 4 + 2 * |units| + 2
            && bs[..4] == Le(2 * |units| + 2, 4)
            && (k < |units| ==> bs[4 + 2 * k] == units[k] % 256 && bs[5 + 2 * k] == units[k] / 256)
            && bs[4 + 2 * |units|] == bs[5 + 2 * |units|] == 0
  {
    hide Le, UnitBytes, Pow256;
    Powers();
    var body := UnitBytes(units + [NUL]);
    if k < |units| {
      UnitAt(units + [NUL], k);
      BehindTheLength(units, 2 * k);
      BehindTheLength(units, 2 * k + 1);
    }
    UnitAt(units + [NUL], |units|);
    BehindTheLength(units, 2 * |units|);
    BehindTheLength(units, 2 * |units| + 1);
  }

  lemma BehindTheLength(units: seq<nat>, j: nat)
    requires Valid(Text(units)) && j < 2 * |units| + 2
    ensures |Encode(Text(units))| == 2 * |units| + 6 && Encode(Text(units))[4 + j] == UnitBytes(units + [NUL])[j]
    ensures Encode(Text(units))[..4] == Le(2 * |units| + 2, 4)
  {
    hide Le, UnitBytes, Pow256;
  }

  lemma {:induction false} UnitAt(units: seq<nat>, k: nat)
    requires k < |units| && units[k] < 0x1_0000
    ensures UnitBytes(units)[2 * k] == units[k] % 256 && UnitBytes(units)[2 * k + 1] == units[k] / 256
  {
    if k > 0 {
      UnitAt(units[1..], k - 1);
    } else {
      TwoBytes(units[0]);
    }
  }

  /** What is read of bytes nobody wrote that way: any byte but zero is true, a
      string of length zero is empty, and a string whose length goes up to the end
      of the buffer or beyond throws, with its length consumed. */
  lemma ForeignBytes(s: Stream)
    requires s.r + 4 < |s.data|
    ensures Decode(s, BoolT) == Got(Bool(s.data[s.r] != 0), s.(r := s.r + 1))
    ensures var len, s1 := UnLe(s.data[s.r..s.r + 4]), s.(r := s.r + 4);
            && (len == 0 ==> Decode(s, TextT) == Got(Text([]), s1))
            && (len > 0 && s.r + 4 + len >= |s.data| ==> Decode(s, TextT) == Throws(s1))
  {
  }

  // ------------------------------------------------------------- round trips

  /** `bs` lies ahead of the read offset, and the buffer goes on behind it. */
  predicate Ahead(s: Stream, bs: seq<Byte>) {
    s.r + |bs| < |s.data| && s.data[s.r..s.r + |bs|] == bs
  }

  lemma FetchTakes(s: Stream, bs: seq<Byte>, rest: seq<Byte>)
    requires Ahead(s, bs + rest)
    ensures Fetch(s, |bs|) == Got(bs, s.(r := s.r + |bs|)) && Ahead(s.(r := s.r + |bs|), rest)
  {
    var all := s.data[s.r..s.r + |bs + rest|];
    assert s.data[s.r..s.r + |bs|] == all[..|bs|];
    assert s.data[s.r + |bs|..s.r + |bs| + |rest|] == all[|bs|..];
  }

  function UpToNul(units: seq<nat>): seq<nat> {
    if units == [] || units[0] == NUL then [] else [units[0]] + UpToNul(units[1..])
  }

  /** What a reader gets for a value: a string ends at its first NUL. */
  function Heard(v: Value): Value {
    if v.Text? then Text(UpToNul(v.units)) else v
  }

  predicate NulFree(v: Value) {
    v.Text? ==> NUL !in v.units
  }

  /** A value comes back as it was exactly when it holds no NUL. */
  lemma {:induction false} UnchangedExactlyWhenNulFree(v: Value)
    ensures Heard(v) == v <==> NulFree(v)
  {
    if v.Text? {
      UpToNulIs(v.units);
    }
  }

  lemma {:induction false} UpToNulIs(units: seq<nat>)
    ensures NUL !in UpToNul(units) && UpToNul(units) <= units
    ensures UpToNul(units) == units <==> NUL !in units
  {
    if units != [] && units[0] != NUL {
      UpToNulIs(units[1..]);
      assert units == [units[0]] + units[1..];
    }
  }

  lemma {:induction false} UnitsRoundTrip(units: seq<nat>)
    requires forall i :: 0 <= i < |units| ==> units[i] < Pow256(SHORT)
    ensures Units(UnitBytes(units + [NUL])) == UpToNul(units)
  {
    var bs := UnitBytes(units + [NUL]);
    if units == [] {
      assert bs[..2] == Le(0, SHORT);
      LeRoundTrip(0, SHORT);
    } else {
      assert (units + [NUL])[1..] == units[1..] + [NUL];
      assert bs[..2] == Le(units[0], SHORT);
      assert bs[2..] == UnitBytes(units[1..] + [NUL]);
      LeRoundTrip(units[0], SHORT);
      UnitsRoundTrip(units[1..]);
    }
  }

  lemma NumberRoundTrip(v: Value)
    requires Valid(v) && !v.Text?
    ensures |Encode(v)| == Size(TypeOf(v)) && FromBytes(TypeOf(v), Encode(v)) == v
  {
    match v
    case Long(i) => LeRoundTrip(Wrap(i, LONG), LONG);
    case ULong(n) => LeRoundTrip(n, LONG);
    case Short(i) => LeRoundTrip(Wrap(i, SHORT), SHORT);
    case UShort(n) => LeRoundTrip(n, SHORT);
    case Char(i) => LeRoundTrip(Wrap(i, BYTE), BYTE);
    case UChar(n) => LeRoundTrip(n, BYTE);
    case Bool(_) =>
    case Raw(_) =>
  }

  /** Reading back one value, whatever follows it in the stream. */
  lemma ValueRoundTrip(s: Stream, v: Value, rest: seq<Byte>)
    requires Valid(v) && Ahead(s, Encode(v) + rest)
    ensures var s' := s.(r := s.r + |Encode(v)|);
            Decode(s, TypeOf(v)) == Got(Heard(v), s') && Ahead(s', rest)
  {
    if v.Text? {
      TextRoundTrip(s, v.units, rest);
    } else {
      NumberRoundTrip(v);
      FetchTakes(s, Encode(v), rest);
    }
  }

  /** A string is read as its length and then that many bytes. */
  lemma TextFetched(s: Stream, len: seq<Byte>, body: seq<Byte>, rest: seq<Byte>)
    requires |len| == 4 && UnLe(len) == |body| > 0 && Ahead(s, len + body + rest)
    ensures var s' := s.(r := s.r + |len + body|);
            Decode(s, TextT) == Got(Text(Units(body)), s') && Ahead(s', rest)
  {
    var s1, s2 := s.(r := s.r + 4), s.(r := s.r + |len + body|);
    assert len + body + rest == len + (body + rest);
    FetchTakes(s, len, body + rest);
    FetchTakes(s1, body, rest);
    DecodesText(s, len, s1, body, s2);
  }

  lemma DecodesText(s: Stream, len: seq<Byte>, s1: Stream, body: seq<Byte>, s2: Stream)
    requires Fetch(s, 4) == Got(len, s1) && UnLe(len) == |body| > 0 && Fetch(s1, |body|) == Got(body, s2)
    ensures Decode(s, TextT) == Got(Text(Units(body)), s2)
  {
  }

  lemma TextRoundTrip(s: Stream, units: seq<nat>, rest: seq<Byte>)
    requires Valid(Text(units)) && Ahead(s, Encode(Text(units)) + rest)
    ensures var s' := s.(r := s.r + |Encode(Text(units))|);
            Decode(s, TextT) == Got(Text(UpToNul(units)), s') && Ahead(s', rest)
  {
    var n := 2 * (|units| + 1);
    LeRoundTrip(n, LONG);
    UnitsRoundTrip(units);
    TextFetched(s, Le(n, LONG), UnitBytes(units + [NUL]), rest);
  }

  predicate AllValid(vs: seq<Value>) {
    forall i :: 0 <= i < |vs| ==> Valid(vs[i])
  }

  function EncodeAll(vs: seq<Value>): seq<Byte>
    requires AllValid(vs)
  {
    if vs == [] then [] else Encode(vs[0]) + EncodeAll(vs[1..])
  }

  function WriteAll(s: Stream, vs: seq<Value>): Stream
    requires HasRoom(s) && AllValid(vs)
    decreases |vs|
  {
    if vs == [] then s
    else
      WriteAppends(s, Encode(vs[0]));
      WriteAll(Written(s, Encode(vs[0])), vs[1..])
  }

  function Types(vs: seq<Value>): seq<Type> {
    seq(|vs|, i requires 0 <= i < |vs| => TypeOf(vs[i]))
  }

  function HeardAll(vs: seq<Value>): seq<Value> {
    seq(|vs|, i requires 0 <= i < |vs| => Heard(vs[i]))
  }

  function ReadAll(s: Stream, ts: seq<Type>): Outcome<seq<Value>>
    decreases |ts|
  {
    if ts == [] then Got([], s)
    else match Decode(s, ts[0])
      case Throws(s1) => Throws(s1)
      case Got(v, s1) =>
        match ReadAll(s1, ts[1..])
        case Throws(s2) => Throws(s2)
        case Got(vs, s2) => Got([v] + vs, s2)
  }

  lemma {:induction false} WriteAllAppends(s: Stream, vs: seq<Value>)
    requires HasRoom(s) && AllValid(vs)
    ensures var s' := WriteAll(s, vs);
            && HasRoom(s') && s'.r == s.r && s'.w == s.w + |EncodeAll(vs)|
            && s'.data[..s'.w] == s.data[..s.w] + EncodeAll(vs)
            && (vs != [] ==> s'.dirty && s'.w < |s'.data|)
    decreases |vs|
  {
    hide Encode, Written, Valid;
    if vs == [] {
      assert s.data[..s.w] + [] == s.data[..s.w];
    } else {
      var s1, bs := WriteFirst(s, vs);
      WriteAllAppends(s1, vs[1..]);
      assert s.data[..s.w] + bs + EncodeAll(vs[1..]) == s.data[..s.w] + (bs + EncodeAll(vs[1..]));
    }
  }

  lemma WriteFirst(s: Stream, vs: seq<Value>) returns (s1: Stream, bs: seq<Byte>)
    requires HasRoom(s) && AllValid(vs) && vs != []
    ensures HasRoom(s1) && WriteAll(s, vs) == WriteAll(s1, vs[1..]) && EncodeAll(vs) == bs + EncodeAll(vs[1..])
    ensures s1.r == s.r && s1.w == s.w + |bs| < |s1.data| && s1.dirty && s1.data[..s1.w] == s.data[..s.w] + bs
  {
    bs := Encode(vs[0]);
    WriteAppends(s, bs);
    s1 := Written(s, bs);
  }

  lemma {:induction false} ReadAllBack(s: Stream, vs: seq<Value>)
    requires AllValid(vs) && (vs != [] ==> Ahead(s, EncodeAll(vs)))
    ensures ReadAll(s, Types(vs)) == Got(HeardAll(vs), s.(r := s.r + |EncodeAll(vs)|))
    decreases |vs|
  {
    if vs == [] {
      assert Types(vs) == [] && HeardAll(vs) == [];
    } else {
      var s1 := ReadFirst(s, vs);
      ReadAllBack(s1, vs[1..]);
      HeadAndTail(vs);
      ReadNext(s, TypeOf(vs[0]), Types(vs[1..]), Heard(vs[0]), s1);
    }
  }

  lemma HeadAndTail(vs: seq<Value>)
    requires vs != []
    ensures Types(vs) == [TypeOf(vs[0])] + Types(vs[1..])
    ensures HeardAll(vs) == [Heard(vs[0])] + HeardAll(vs[1..])
  {
    assert Types(vs)[1..] == Types(vs[1..]);
    assert HeardAll(vs)[1..] == HeardAll(vs[1..]);
  }

  lemma ReadFirst(s: Stream, vs: seq<Value>) returns (s1: Stream)
    requires AllValid(vs) && vs != [] && Ahead(s, EncodeAll(vs))
    ensures Decode(s, TypeOf(vs[0])) == Got(Heard(vs[0]), s1) && Ahead(s1, EncodeAll(vs[1..]))
    ensures s1.(r := s1.r + |EncodeAll(vs[1..])|) == s.(r := s.r + |EncodeAll(vs)|)
  {
    ValueRoundTrip(s, vs[0], EncodeAll(vs[1..]));
    s1 := s.(r := s.r + |Encode(vs[0])|);
  }

  lemma ReadNext(s: Stream, t: Type, ts: seq<Type>, v: Value, s1: Stream)
    requires Decode(s, t) == Got(v, s1) && ReadAll(s1, ts).Got?
    ensures ReadAll(s, [t] + ts) == Got([v] + ReadAll(s1, ts).value, ReadAll(s1, ts).s)
  {
    assert ([t] + ts)[1..] == ts;
  }

  /** Whatever is written to a stream that has been read up to its end is read
      back with the same types, however often the buffer had to grow: each value
      unchanged, but for strings cut at a NUL. */
  lemma RoundTrip(s: Stream, vs: seq<Value>)
    requires HasRoom(s) && s.r == s.w && AllValid(vs)
    ensures var s' := WriteAll(s, vs); ReadAll(s', Types(vs)) == Got(HeardAll(vs), s'.(r := s'.w))
    ensures HeardAll(vs) == vs <==> forall i :: 0 <= i < |vs| ==> NulFree(vs[i])
  {
    WriteAllAppends(s, vs);
    var s' := WriteAll(s, vs);
    if vs != [] {
      assert s'.data[s'.r..s'.w] == s'.data[..s'.w][s.w..] == EncodeAll(vs);
    }
    ReadAllBack(s', vs);
    forall i | 0 <= i < |vs|
      ensures HeardAll(vs)[i] == vs[i] <==> NulFree(vs[i])
    {
      UnchangedExactlyWhenNulFree(vs[i]);
    }
    if HeardAll(vs) != vs {
      assert exists i :: 0 <= i < |vs| && HeardAll(vs)[i] != vs[i];
    }
  }

  /** A string that begins with a NUL comes back empty. */
  lemma TextIsCutAtNul()
    ensures AllValid([Text([NUL])])
    ensures var s := WriteAll(FRESH, [Text([NUL])]);
            ReadAll(s, [TextT]) == Got([Text([])], s.(r := s.w)) && Text([]) != Text([NUL])
  {
    var vs := [Text([NUL])];
    NulFits();
    RoundTrip(FRESH, vs);
    assert UpToNul([NUL]) == [];
    assert Types(vs) == [TextT] && HeardAll(vs) == [Text([])];
  }

  lemma NulFits()
    ensures Valid(Text([NUL]))
  {
    assert Pow256(2) == 65536 && Pow256(4) == 65536 * 65536;
  }

  // ------------------------------------------------------------ version stamp

  const VER_MARK: nat := 0x52455600

  /** The stamp of a version; the caller keeps it to one byte. */
  function Stamped(s: Stream, version: nat): Stream
    requires HasRoom(s) && version < 256
  {
    Written(s, Le(VER_MARK + version, LONG))
  }

  predicate IsMark(n: nat) {
    n / 256 * 256 == VER_MARK
  }

  /** The version, or -1 and the stream as it was. */
  function VersionOf(s: Stream): Outcome<int> {
    match Fetch(s, 4)
    case Throws(s1) => Throws(s1)
    case Got(bs, s1) => if IsMark(UnLe(bs)) then Got(UnLe(bs) % 256, s1) else Got(-1, BackedUp(s1, 4))
  }

  /** A stamp reads back as itself, and the values behind it are read next. */
  lemma StampRoundTrip(s: Stream, version: nat, vs: seq<Value>)
    requires HasRoom(s) && s.r == s.w && version < 256 && AllValid(vs)
    ensures HasRoom(Stamped(s, version))
    ensures var s' := WriteAll(Stamped(s, version), vs);
            && VersionOf(s') == Got(version, s'.(r := s.r + 4))
            && ReadAll(s'.(r := s.r + 4), Types(vs)) == Got(HeardAll(vs), s'.(r := s'.w))
  {
    LeRoundTrip(VER_MARK + version, LONG);
    WriteAppends(s, Le(VER_MARK + version, LONG));
    MarkRoundTrip(s, Le(VER_MARK + version, LONG), version, vs);
  }

  lemma MarkRoundTrip(s: Stream, mark: seq<Byte>, version: nat, vs: seq<Value>)
    requires HasRoom(s) && HasRoom(Written(s, mark)) && s.r == s.w && AllValid(vs)
    requires |mark| == 4 && UnLe(mark) == VER_MARK + version && version < 256
    ensures var s' := WriteAll(Written(s, mark), vs);
            && VersionOf(s') == Got(version, s'.(r := s.r + 4))
            && ReadAll(s'.(r := s.r + 4), Types(vs)) == Got(HeardAll(vs), s'.(r := s'.w))
  {
    hide Encode, Written, EncodeAll;
    var s' := BytesThenValues(s, mark, vs);
    MarkSeen(s', mark, EncodeAll(vs), version);
    ReadAllBack(s'.(r := s.r + 4), vs);
  }

  lemma MarkSeen(s: Stream, mark: seq<Byte>, rest: seq<Byte>, version: nat)
    requires |mark| == 4 && UnLe(mark) == VER_MARK + version && version < 256 && Ahead(s, mark + rest)
    ensures VersionOf(s) == Got(version, s.(r := s.r + 4)) && Ahead(s.(r := s.r + 4), rest)
  {
    FetchTakes(s, mark, rest);
  }

  lemma BytesThenValues(s: Stream, bs: seq<Byte>, vs: seq<Value>) returns (s': Stream)
    requires HasRoom(s) && HasRoom(Written(s, bs)) && s.r == s.w && AllValid(vs)
    ensures s' == WriteAll(Written(s, bs), vs) && s'.r == s.r && s'.w == s.r + |bs| + |EncodeAll(vs)|
    ensures bs != [] ==> Ahead(s', bs + EncodeAll(vs))
  {
    hide Encode, Written, EncodeAll;
    WriteAppends(s, bs);
    WriteAllAppends(Written(s, bs), vs);
    s' := WriteAll(Written(s, bs), vs);
    assert s'.data[s.r..s'.w] == s'.data[..s'.w][s.w..] == bs + EncodeAll(vs);
  }

  /** Looking for a version has three outcomes, told apart by the first four
      bytes: none to read, no mark among them, or a version.  Only the last one
      moves the read offset. */
  lemma VersionExactlyWhenMarked(s: Stream)
    ensures VersionOf(s).Throws? <==> s.r + 4 >= |s.data|
    ensures VersionOf(s).Throws? ==> VersionOf(s).s == s
    ensures s.r + 4 < |s.data| ==>
              if 0x52455600 <= UnLe(s.data[s.r..s.r + 4]) <= 0x524556FF
              then VersionOf(s) == Got(UnLe(s.data[s.r..s.r + 4]) - 0x52455600, s.(r := s.r + 4))
              else VersionOf(s) == Got(-1, s)
  {
  }

  /** An unstamped stream is mistaken for a stamped one exactly when its first
      number happens to look like a mark. */
  lemma UnstampedIsTakenForStampedExactlyWhen(s: Stream, n: nat)
    requires HasRoom(s) && s.r == s.w && n < Pow256(LONG)
    ensures var s' := Written(s, Encode(ULong(n)));
            VersionOf(s') == Got(-1, s') <==> !(0x52455600 <= n <= 0x524556FF)
  {
    WriteAppends(s, Le(n, LONG));
    LeRoundTrip(n, LONG);
    var s' := Written(s, Le(n, LONG));
    assert s'.data[s.r..s.r + 4] == s'.data[..s'.w][s.w..] == Le(n, LONG);
    VersionExactlyWhenMarked(s');
  }

  /** A stream that begins with the number 0x52455607 has a version 7, though
      nobody stamped it. */
  lemma NumberIsReadAsVersion()
    ensures Valid(ULong(0x52455607)) && HasRoom(FRESH)
    ensures var s := Written(FRESH, Encode(ULong(0x52455607))); VersionOf(s) == Got(7, s.(r := 4))
  {
    MarkFits(7);
    StampRoundTrip(FRESH, 7, []);
  }

  lemma MarkFits(version: nat)
    requires version < 256
    ensures Valid(ULong(VER_MARK + version))
  {
    assert Pow256(4) == 256 * 256 * 256 * 256;
  }

  // ----------------------------------------------------------------- registry

  /** The values of one device: `Count` and `Data0`, `Data1`, ... */
  datatype Registry = Registry(count: nat, chunks: map<nat, seq<Byte>>)

  const CHUNK: nat := 1024

  function Min(a: nat, b: nat): nat {
    if a < b then a else b
  }

  /** _regSetValue from chunk `i` on. */
  function SavedFrom(reg: Registry, i: nat, bs: seq<Byte>): Registry
    decreases |bs|
  {
    if bs == [] then reg.(count := i)
    else
      var n := Min(|bs|, CHUNK);
      SavedFrom(reg.(chunks := reg.chunks[i := bs[..n]]), i + 1, bs[n..])
  }

  /** _regQueryValue from chunk `i` on: it stops at a chunk that is missing or
      does not fit its kilobyte. */
  function LoadedFrom(reg: Registry, i: nat): (bs: seq<Byte>)
    requires i <= reg.count
    ensures |bs| <= (reg.count - i) * CHUNK
    decreases reg.count - i
  {
    if i == reg.count || i !in reg.chunks || |reg.chunks[i]| > CHUNK then []
    else reg.chunks[i] + LoadedFrom(reg, i + 1)
  }

  function Opened(s: Stream, reg: Registry): Stream {
    if reg.count == 0 then s
    else
      var g := Grown(s, reg.count * CHUNK);
      g.(data := Overlay(g.data, 0, LoadedFrom(reg, 0)))
  }

  function ClosedRegistry(s: Stream, reg: Registry): Registry
    requires s.w <= |s.data|
  {
    if s.w > 0 && s.dirty then SavedFrom(reg, 0, s.data[..s.w]) else reg
  }

  lemma {:induction false} SavedKeepsBelow(reg: Registry, i: nat, bs: seq<Byte>, k: nat)
    requires k < i
    ensures var reg' := SavedFrom(reg, i, bs);
            (k in reg'.chunks <==> k in reg.chunks) && (k in reg.chunks ==> reg'.chunks[k] == reg.chunks[k])
    decreases |bs|
  {
    if bs != [] {
      var n := Min(|bs|, CHUNK);
      SavedKeepsBelow(reg.(chunks := reg.chunks[i := bs[..n]]), i + 1, bs[n..], k);
    }
  }

  lemma {:induction false} LoadAfterSave(reg: Registry, i: nat, bs: seq<Byte>)
    ensures var reg' := SavedFrom(reg, i, bs);
            && reg'.count == i + (|bs| + 1023) / 1024
            && LoadedFrom(reg', i) == bs
    decreases |bs|
  {
    if bs != [] {
      var n := Min(|bs|, CHUNK);
      var next := reg.(chunks := reg.chunks[i := bs[..n]]);
      LoadAfterSave(next, i + 1, bs[n..]);
      SavedKeepsBelow(next, i + 1, bs[n..], i);
      assert bs[..n] + bs[n..] == bs;
    }
  }

  /** The chunk is there and is no longer than a kilobyte. */
  predicate Readable(reg: Registry, i: nat) {
    i in reg.chunks && |reg.chunks[i]| <= 1024
  }

  /** The chunks from `i` up to `k`, one after the other. */
  function Joined(reg: Registry, i: nat, k: nat): seq<Byte>
    requires i <= k && forall j :: i <= j < k ==> Readable(reg, j)
    decreases k - i
  {
    if i == k then [] else assert Readable(reg, i); reg.chunks[i] + Joined(reg, i + 1, k)
  }

  /** Loading brings the chunks in front of the first that is missing or too
      long, whole and in order, and nothing behind it. */
  lemma {:induction false} LoadedUpToTheFirstGap(reg: Registry, i: nat, k: nat)
    requires i <= k <= reg.count && forall j :: i <= j < k ==> Readable(reg, j)
    requires k == reg.count || !Readable(reg, k)
    ensures LoadedFrom(reg, i) == Joined(reg, i, k)
    decreases k - i
  {
    if i < k {
      assert Readable(reg, i);
      LoadedUpToTheFirstGap(reg, i + 1, k);
    }
  }

  /** Closing a stream and opening a new one on the same registry brings back
      the written bytes, in ceil(n/1024) chunks, whatever the registry held
      before, and leaves room behind them, so that all of them can be read. */
  lemma Persists(s: Stream, reg: Registry)
    requires HasRoom(s) && s.w > 0 && s.dirty
    ensures var reg' := ClosedRegistry(s, reg);
            var t := Opened(FRESH, reg');
            && reg'.count == (s.w + 1023) / 1024
            && s.w < |t.data| == (reg'.count + 1) * 1024 && t.data[..s.w] == s.data[..s.w] && t.r == 0
            && forall n :: 0 <= n <= s.w ==> Fetch(t, n) == Got(s.data[..n], t.(r := n))
  {
    hide Opened, SavedFrom, LoadedFrom;
    LoadAfterSave(reg, 0, s.data[..s.w]);
    OpenedBuffer(ClosedRegistry(s, reg));
    var t := Opened(FRESH, ClosedRegistry(s, reg));
    forall n | 0 <= n <= s.w
      ensures t.data[..n] == s.data[..n]
    {
      assert t.data[..n] == t.data[..s.w][..n];
    }
  }

  lemma OpenedBuffer(reg: Registry)
    requires reg.count > 0
    ensures var t, bs := Opened(FRESH, reg), LoadedFrom(reg, 0);
            && |bs| <= reg.count * 1024 && |t.data| == (reg.count + 1) * 1024
            && t.data[..|bs|] == bs && t == FRESH.(data := t.data)
  {
  }

  /** Closing stores exactly what was written since the stream was opened: with
      nothing written the registry stays as it was. */
  lemma ClosingStoresWhatWasWritten(s: Stream, reg: Registry)
    requires HasRoom(s)
    ensures s.w == 0 || !s.dirty ==> ClosedRegistry(s, reg) == reg
    ensures s.w > 0 && s.dirty ==> LoadedFrom(ClosedRegistry(s, reg), 0) == s.data[..s.w]
  {
    LoadAfterSave(reg, 0, s.data[..s.w]);
  }

  /** Values written, closed and opened again come back; with nothing written,
      closing leaves the registry as it was. */
  lemma PersistentRoundTrip(vs: seq<Value>, reg: Registry)
    requires AllValid(vs)
    ensures var s := WriteAll(FRESH, vs);
            s.w <= |s.data|
    ensures var s := WriteAll(FRESH, vs);
            if EncodeAll(vs) != []
            then ReadAll(Opened(FRESH, ClosedRegistry(s, reg)), Types(vs)).Got?
                 && ReadAll(Opened(FRESH, ClosedRegistry(s, reg)), Types(vs)).value == HeardAll(vs)
            else ClosedRegistry(s, reg) == reg
  {
    hide EncodeAll, Opened, ReadAll, Types, HeardAll;
    WriteAllAppends(FRESH, vs);
    var s := WriteAll(FRESH, vs);
    if EncodeAll(vs) != [] {
      Persists(s, reg);
      var t := Opened(FRESH, ClosedRegistry(s, reg));
      assert t.data[0..0 + s.w] == t.data[..s.w] == s.data[..s.w] == EncodeAll(vs);
      ReadAllBack(t, vs);
    }
  }
}
