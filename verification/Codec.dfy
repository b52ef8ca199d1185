/**
 The binary writer and reader: little-endian numbers, length-prefixed byte strings, and a reader that
 checks its bounds and, once it failed, fails for ever.
 */
module Codec {
  import opened Basics

  const Two32: nat := 0x1_0000_0000

  // ---- little-endian numbers ----

  /** v shifted left by n bytes. */
  function Left(v: nat, n: nat): nat {
    if n == 0 then v else 256 * Left(v, n - 1)
  }

  /** The number of values of n bytes. */
  function Pow(n: nat): nat {
    Left(1, n)
  }

  /** v shifted right by n bytes. */
  function Right(v: nat, n: nat): nat {
    if n == 0 then v else Right(v, n - 1) / 256
  }

  /** The n low bytes of v, low byte first. */
  function LowBytes(v: nat, n: nat): (bs: seq<Byte>)
    ensures |bs| == n
  {
    if n == 0 then [] else LowBytes(v, n - 1) + [Right(v, n - 1) % 256]
  }

  function Value(bs: seq<Byte>): nat {
    if bs == [] then 0 else Value(bs[..|bs| - 1]) + Left(bs[|bs| - 1], |bs| - 1)
  }

  lemma {:induction false} LeftAdd(a: nat, b: nat, n: nat)
    ensures Left(256 * a + b, n) == Left(a, n + 1) + Left(b, n)
    decreases n
  {
    if n > 0 {
      LeftAdd(a, b, n - 1);
    }
  }

  lemma {:induction false} LeftAtLeast(a: nat, n: nat)
    requires a > 0
    ensures Left(a, n) >= Left(1, n)
    decreases n
  {
    if n > 0 {
      LeftAtLeast(a, n - 1);
    }
  }

  /** The low bytes and what is shifted out make up the number. */
  lemma {:induction false} NumberSplit(v: nat, n: nat)
    ensures Value(LowBytes(v, n)) + Left(Right(v, n), n) == v
    decreases n
  {
    if n > 0 {
      NumberSplit(v, n - 1);
      assert LowBytes(v, n)[..n - 1] == LowBytes(v, n - 1);
      var q := Right(v, n - 1);
      LeftAdd(q / 256, q % 256, n - 1);
    }
  }

  lemma Powers()
    ensures Pow(1) == 0x100 && Pow(2) == 0x1_0000 && Pow(4) == Two32 && Pow(8) == Two32 * Two32
  {
    assert Left(1, 1) == 0x100 && Left(1, 2) == 0x1_0000 && Left(1, 3) == 0x100_0000 && Left(1, 4) == Two32;
    assert Left(1, 5) == 256 * Two32 && Left(1, 6) == 0x1_0000 * Two32 && Left(1, 7) == 0x100_0000 * Two32;
  }

  // ---- fields ----

  datatype Kind = KU8 | KU16 | KU32 | KU64 | KBool | KBytes

  datatype Field =
    | U8(v: nat)
    | U16(v: nat)
    | U32(v: nat)
    | U64(v: nat)
    | Bool(b: bool)
    | Bytes(s: seq<Byte>)

  function KindOf(f: Field): Kind {
    match f
    case U8(_) => KU8
    case U16(_) => KU16
    case U32(_) => KU32
    case U64(_) => KU64
    case Bool(_) => KBool
    case Bytes(_) => KBytes
  }

  /** The number of bytes of a fixed-size field, or of a byte string's length prefix. */
  function Width(k: Kind): nat {
    match k
    case KU8 => 1
    case KU16 => 2
    case KU32 => 4
    case KU64 => 8
    case KBool => 1
    case KBytes => 4
  }

  /** A value of the field's C++ type; byte strings short enough for their length prefix. */
  predicate InType(f: Field) {
    match f
    case Bool(_) => true
    case Bytes(s) => |s| < Two32
    case other => other.v < Pow(Width(KindOf(f)))
  }

  /** The bytes the writer appends; a longer byte string's length is cut to 32 bits. */
  function Written(f: Field): seq<Byte> {
    match f
    case Bool(b) => LowBytes(if b then 1 else 0, 1)
    case Bytes(s) => LowBytes(|s| % Two32, 4) + s
    case other => LowBytes(other.v, Width(KindOf(f)))
  }

  class CBinaryWriter {
    var buffer: seq<Byte>

    constructor ()
      ensures buffer == []
    {
      buffer := [];
    }

    /** The shift-and-mask loop of the fixed-size writes. */
    method WriteWord(v: nat, n: nat)
      modifies this
      ensures buffer == old(buffer) + LowBytes(v, n)
    {
      var bytes: seq<Byte> := [];
      var i := 0;
      var shifted := v;
      while i < n
        invariant 0 <= i <= n && bytes == LowBytes(v, i) && shifted == Right(v, i)
        invariant buffer == old(buffer)
      {
        bytes := bytes + [shifted % 256];
        shifted := shifted / 256;
        i := i + 1;
      }
      buffer := buffer + bytes;
    }

    method WriteBytes(s: seq<Byte>)
      modifies this
      ensures buffer == old(buffer) + Written(Bytes(s))
    {
      WriteWord(|s| % Two32, 4);
      if |s| > 0 {
        buffer := buffer + s;
      }
    }

    method Write(f: Field)
      modifies this
      ensures buffer == old(buffer) + Written(f)
    {
      match f {
        case Bool(b) => WriteWord(if b then 1 else 0, 1);
        case Bytes(s) => WriteBytes(s);
        case other => WriteWord(other.v, Width(KindOf(f)));
      }
    }
  }

  // ---- the reader ----

  /** Position and failure latch over fixed data. */
  datatype Cursor = Cursor(data: seq<Byte>, pos: nat, failed: bool) {
    ghost predicate Valid() {
      pos <= |data|
    }

    predicate Has(n: nat) {
      !failed && pos + n <= |data|
    }
  }

  datatype Answer = Fail | Read(f: Field)

  /** One read: the new cursor, and the field when it was there. */
  function ReadField(c: Cursor, k: Kind): (r: (Cursor, Answer))
    ensures r.0.data == c.data && (c.Valid() ==> r.0.Valid())
  {
    var w := Width(k);
    if !c.Has(w) then (c.(failed := true), Fail)
    else
      var v := Value(c.data[c.pos..c.pos + w]);
      var next := c.(pos := c.pos + w);
      match k
      case KU8 => (next, Read(U8(v)))
      case KU16 => (next, Read(U16(v)))
      case KU32 => (next, Read(U32(v)))
      case KU64 => (next, Read(U64(v)))
      case KBool => (next, Read(Bool(v != 0)))
      case KBytes =>
        if !next.Has(v) then (next.(failed := true), Fail)
        else (next.(pos := next.pos + v), Read(Bytes(c.data[next.pos..next.pos + v])))
  }

  class CBinaryReader {
    const data: seq<Byte>
    var pos: nat
    var failed: bool

    constructor (data: seq<Byte>)
      ensures State() == Cursor(data, 0, false) && State().Valid()
    {
      this.data, pos, failed := data, 0, false;
    }

    ghost function State(): Cursor
      reads this
    {
      Cursor(data, pos, failed)
    }

    /** n bytes, or the failure latch. */
    method ReadRaw(n: nat) returns (ok: bool, bytes: seq<Byte>)
      requires State().Valid()
      modifies this
      ensures ok <==> old(State()).Has(n)
      ensures ok ==> bytes == data[old(pos)..old(pos) + n] && State() == old(State()).(pos := old(pos) + n)
      ensures !ok ==> State() == old(State()).(failed := true)
    {
      if failed || |data| - pos < n {
        failed := true;
        return false, [];
      }
      bytes := data[pos..pos + n];
      pos := pos + n;
      ok := true;
    }

    /** The accumulating loop of the fixed-size reads. */
    method ReadWord(n: nat) returns (ok: bool, v: nat)
      requires State().Valid()
      modifies this
      ensures ok <==> old(State()).Has(n)
      ensures ok ==> v == Value(data[old(pos)..old(pos) + n]) && State() == old(State()).(pos := old(pos) + n)
      ensures !ok ==> State() == old(State()).(failed := true)
    {
      var bytes;
      ok, bytes := ReadRaw(n);
      v := 0;
      if ok {
        var i := 0;
        while i < n
          invariant 0 <= i <= n == |bytes| && v == Value(bytes[..i])
          invariant State() == old(State()).(pos := old(pos) + n)
        {
          assert bytes[..i + 1][..i] == bytes[..i];
          v := v + Left(bytes[i], i);
          i := i + 1;
        }
        assert bytes[..n] == bytes;
      }
    }

    method Read(k: Kind) returns (a: Answer)
      requires State().Valid()
      modifies this
      ensures (State(), a) == ReadField(old(State()), k)
    {
      var ok, v := ReadWord(Width(k));
      if !ok {
        return Fail;
      }
      match k {
        case KU8 => a := Answer.Read(U8(v));
        case KU16 => a := Answer.Read(U16(v));
        case KU32 => a := Answer.Read(U32(v));
        case KU64 => a := Answer.Read(U64(v));
        case KBool => a := Answer.Read(Bool(v != 0));
        case KBytes =>
          if v > |data| - pos {
            failed := true;
            return Fail;
          }
          a := Answer.Read(Bytes(data[pos..pos + v]));
          pos := pos + v;
      }
    }
  }

  // ---- the format in plain numbers ----

  /** Which bytes stand for a field. */
  lemma WrittenFormat(f: Field)
    ensures match f
            case U8(v) => Written(f) == [v % 0x100]
            case U16(v) => Written(f) == [v % 0x100, v / 0x100 % 0x100]
            case U32(v) => Written(f) == Four(v)
            case U64(v) =>
              Written(f) == Four(v) + [v / 0x1_0000_0000 % 0x100, v / 0x100_0000_0000 % 0x100,
                                       v / 0x1_0000_0000_0000 % 0x100, v / 0x100_0000_0000_0000 % 0x100]
            case Bool(b) => Written(f) == [if b then 1 else 0]
            case Bytes(s) => Written(f) == Four(|s|) + s
  {
    match f {
      case Bool(b) => OneOrTwoBytes(if b then 1 else 0);
      case Bytes(s) => FourBytes(|s| % Two32); LengthCut(|s|);
      case other => OneOrTwoBytes(other.v); FourBytes(other.v); EightBytes(other.v);
    }
  }

  /** The four bytes of a 32-bit number, low byte first. */
  function Four(v: nat): seq<Byte> {
    [v % 0x100, v / 0x100 % 0x100, v / 0x1_0000 % 0x100, v / 0x100_0000 % 0x100]
  }

  lemma OneOrTwoBytes(v: nat)
    ensures LowBytes(v, 1) == [v % 0x100] && LowBytes(v, 2) == [v % 0x100, v / 0x100 % 0x100]
  {
    assert Right(v, 0) == v && Right(v, 1) == v / 0x100;
    assert LowBytes(v, 1) == LowBytes(v, 0) + [v % 0x100];
  }

  lemma FourBytes(v: nat)
    ensures LowBytes(v, 4) == Four(v) && Right(v, 4) == v / 0x1_0000_0000
  {
    OneOrTwoBytes(v);
    Shifted(v);
    assert LowBytes(v, 3) == LowBytes(v, 2) + [v / 0x1_0000 % 0x100];
    assert LowBytes(v, 4) == LowBytes(v, 3) + [v / 0x100_0000 % 0x100];
  }

  lemma Shifted(v: nat)
    ensures Right(v, 1) == v / 0x100 && Right(v, 2) == v / 0x1_0000 && Right(v, 3) == v / 0x100_0000
    ensures Right(v, 4) == v / 0x1_0000_0000
  {
    assert Right(v, 1) == v / 0x100;
    assert Right(v, 2) == v / 0x100 / 0x100 == v / 0x1_0000;
    assert Right(v, 3) == v / 0x1_0000 / 0x100 == v / 0x100_0000;
    assert Right(v, 4) == v / 0x100_0000 / 0x100 == v / 0x1_0000_0000;
  }

  lemma EightBytes(v: nat)
    ensures LowBytes(v, 8) == Four(v) + [v / 0x1_0000_0000 % 0x100, v / 0x100_0000_0000 % 0x100,
                                         v / 0x1_0000_0000_0000 % 0x100, v / 0x100_0000_0000_0000 % 0x100]
  {
    FourBytes(v);
    assert Right(v, 5) == v / 0x1_0000_0000 / 0x100 == v / 0x100_0000_0000;
    assert Right(v, 6) == v / 0x100_0000_0000 / 0x100 == v / 0x1_0000_0000_0000;
    assert Right(v, 7) == v / 0x1_0000_0000_0000 / 0x100 == v / 0x100_0000_0000_0000;
    assert LowBytes(v, 5) == LowBytes(v, 4) + [Right(v, 4) % 0x100];
    assert LowBytes(v, 6) == LowBytes(v, 5) + [Right(v, 5) % 0x100];
    assert LowBytes(v, 7) == LowBytes(v, 6) + [Right(v, 6) % 0x100];
    assert LowBytes(v, 8) == LowBytes(v, 7) + [Right(v, 7) % 0x100];
  }

  /** Cutting a length to 32 bits leaves its four low bytes. */
  lemma LengthCut(n: nat)
    ensures Four(n % Two32) == Four(n)
  {
    var n1, n2, n3, n4 := n / 0x100, n / 0x1_0000, n / 0x100_0000, n / 0x1_0000_0000;
    Shifted(n);
    var b0, b1, b2, b3 := n % 0x100, n1 % 0x100, n2 % 0x100, n3 % 0x100;
    assert n == 0x100 * n1 + b0 && n1 == 0x100 * n2 + b1 && n2 == 0x100 * n3 + b2 && n3 == 0x100 * n4 + b3;
    FromDigits(b0, b1, b2, b3);
    assert n % Two32 == b0 + 0x100 * b1 + 0x1_0000 * b2 + 0x100_0000 * b3;
  }

  lemma FromDigits(b0: nat, b1: nat, b2: nat, b3: nat)
    requires b0 < 0x100 && b1 < 0x100 && b2 < 0x100 && b3 < 0x100
    ensures Four(b0 + 0x100 * b1 + 0x1_0000 * b2 + 0x100_0000 * b3) == [b0, b1, b2, b3]
  {
    var v := b0 + 0x100 * b1 + 0x1_0000 * b2 + 0x100_0000 * b3;
    assert v / 0x100 == b1 + 0x100 * b2 + 0x1_0000 * b3;
    assert v / 0x1_0000 == b2 + 0x100 * b3;
    assert v / 0x100_0000 == b3;
  }

  /** The values a field can hold. */
  lemma InTypeMeans(f: Field)
    ensures InType(f) <==> match f
                           case U8(v) => v < 0x100
                           case U16(v) => v < 0x1_0000
                           case U32(v) => v < 0x1_0000_0000
                           case U64(v) => v < 0x1_0000_0000_0000_0000
                           case Bool(_) => true
                           case Bytes(s) => |s| < 0x1_0000_0000
  {
    Powers();
  }

  /** What a reader in good order makes of the bytes in front of it: numbers. */
  lemma NumberFormat(c: Cursor, k: Kind)
    requires c.Valid() && !c.failed && !k.KBytes?
    ensures var (d, p) := (c.data, c.pos);
            match k
            case KU8 =>
              |d| - p >= 1 ==> ReadField(c, k) == (c.(pos := p + 1), Read(U8(d[p])))
            case KU16 =>
              |d| - p >= 2 ==> ReadField(c, k) == (c.(pos := p + 2), Read(U16(d[p] + 0x100 * Digit(d, p + 1))))
            case KU32 =>
              |d| - p >= 4 ==> ReadField(c, k) == (c.(pos := p + 4), Read(U32(Number32(d, p))))
            case KU64 =>
              |d| - p >= 8 ==>
                ReadField(c, k) ==
                (c.(pos := p + 8), Read(U64(Number32(d, p) + 0x1_0000_0000 * Number32(d, p + 4))))
            case KBool =>
              |d| - p >= 1 ==> ReadField(c, k) == (c.(pos := p + 1), Read(Bool(d[p] != 0)))
  {
    SliceValues(c.data, c.pos);
  }

  /** And byte strings: a body that has not arrived in full makes the read fail behind the length. */
  lemma BytesFormat(c: Cursor)
    requires c.Valid() && !c.failed && |c.data| - c.pos >= 4
    ensures var (d, p, n) := (c.data, c.pos, Number32(c.data, c.pos));
            ReadField(c, KBytes) ==
            if |d| - p >= 4 + n then (c.(pos := p + 4 + n), Read(Bytes(d[p + 4..p + 4 + n])))
            else (c.(pos := p + 4, failed := true), Fail)
  {
    ValueOfFour(c.data, c.pos);
  }

  /** The bytes a read of this kind needs at least; with fewer, it fails and stays where it is. */
  lemma TooShort(c: Cursor, k: Kind)
    requires c.Valid() && !c.failed
    requires |c.data| - c.pos < match k
                                case KU8 => 1
                                case KU16 => 2
                                case KU32 => 4
                                case KU64 => 8
                                case KBool => 1
                                case KBytes => 4
    ensures ReadField(c, k) == (c.(failed := true), Fail)
  {
  }

  lemma SliceValues(d: seq<Byte>, p: nat)
    ensures p + 1 <= |d| ==> Value(d[p..p + 1]) == d[p]
    ensures p + 2 <= |d| ==> Value(d[p..p + 2]) == d[p] + 0x100 * Digit(d, p + 1)
    ensures p + 4 <= |d| ==> Value(d[p..p + 4]) == Number32(d, p)
    ensures p + 8 <= |d| ==> Value(d[p..p + 8]) == Number32(d, p) + 0x1_0000_0000 * Number32(d, p + 4)
  {
    if p + 1 <= |d| {
      assert d[p..p + 1] == [d[p]];
      ValueOfOneOrTwo(d[p], 0);
    }
    if p + 2 <= |d| {
      assert d[p..p + 2] == [d[p], d[p + 1]];
      ValueOfOneOrTwo(d[p], d[p + 1]);
    }
    if p + 4 <= |d| {
      ValueOfFour(d, p);
    }
    if p + 8 <= |d| {
      ValueOfEight(d, p);
    }
  }

  /** The 32-bit number at position p. */
  function Number32(d: seq<Byte>, p: nat): nat
    requires p + 4 <= |d|
  {
    Digit(d, p) + 0x100 * Digit(d, p + 1) + 0x1_0000 * Digit(d, p + 2) + 0x100_0000 * Digit(d, p + 3)
  }

  function Digit(d: seq<Byte>, i: nat): nat
    requires i < |d|
  {
    d[i]
  }

  lemma ValueOfOneOrTwo(a: Byte, b: Byte)
    ensures Value([a]) == a && Value([a, b]) == a + 0x100 * b
  {
    assert [a][..0] == [] && [a, b][..1] == [a];
    LeftMeans(b);
  }

  lemma ValueGrows(d: seq<Byte>, p: nat, n: nat)
    requires p + n < |d|
    ensures Value(d[p..p + n + 1]) == Value(d[p..p + n]) + Left(d[p + n], n)
  {
    assert d[p..p + n + 1][..n] == d[p..p + n];
  }

  lemma ValueOfFour(d: seq<Byte>, p: nat)
    requires p + 4 <= |d|
    ensures Value(d[p..p + 4]) == Number32(d, p)
  {
    assert d[p..p + 2] == [d[p], d[p + 1]];
    ValueOfOneOrTwo(d[p], d[p + 1]);
    ValueGrows(d, p, 2);
    ValueGrows(d, p, 3);
    LeftMeans(d[p + 2]);
    LeftMeans(d[p + 3]);
  }

  lemma LeftMeans(v: nat)
    ensures Left(v, 1) == 0x100 * v && Left(v, 2) == 0x1_0000 * v && Left(v, 3) == 0x100_0000 * v
    ensures Left(v, 4) == 0x1_0000_0000 * v && Left(v, 5) == 0x100_0000_0000 * v
    ensures Left(v, 6) == 0x1_0000_0000_0000 * v && Left(v, 7) == 0x100_0000_0000_0000 * v
  {
    assert Left(v, 1) == 256 * Left(v, 0);
    assert Left(v, 2) == 256 * Left(v, 1);
    assert Left(v, 3) == 256 * Left(v, 2);
    assert Left(v, 4) == 256 * Left(v, 3);
    assert Left(v, 5) == 256 * Left(v, 4);
    assert Left(v, 6) == 256 * Left(v, 5);
  }

  lemma ValueOfEight(d: seq<Byte>, p: nat)
    requires p + 8 <= |d|
    ensures Value(d[p..p + 8]) == Number32(d, p) + 0x1_0000_0000 * Number32(d, p + 4)
  {
    ValueOfFour(d, p);
    ValueGrows(d, p, 4);
    ValueGrows(d, p, 5);
    ValueGrows(d, p, 6);
    ValueGrows(d, p, 7);
    LeftMeans(d[p + 4]);
    LeftMeans(d[p + 5]);
    LeftMeans(d[p + 6]);
    LeftMeans(d[p + 7]);
  }

  // ---- what was written is read back ----

  /** The number in front of a field: its value, or its length. */
  function Number(f: Field): nat {
    match f
    case Bool(b) => if b then 1 else 0
    case Bytes(s) => |s|
    case other => other.v
  }

  lemma SmallNumber(v: nat, w: nat)
    requires v < Pow(w)
    ensures Value(LowBytes(v, w)) == v
  {
    NumberSplit(v, w);
    if Right(v, w) > 0 {
      LeftAtLeast(Right(v, w), w);
    } else {
      LeftZero(w);
    }
  }

  lemma {:induction false} LeftZero(n: nat)
    ensures Left(0, n) == 0
  {
    if n > 0 {
      LeftZero(n - 1);
    }
  }

  lemma WrittenFront(f: Field)
    requires InType(f)
    ensures Number(f) < Pow(Width(KindOf(f)))
    ensures Written(f) == LowBytes(Number(f), Width(KindOf(f))) + if f.Bytes? then f.s else []
  {
    Powers();
    if f.Bytes? {
      assert |f.s| % Two32 == |f.s|;
    }
  }

  /** These bytes are at this position. */
  predicate At(data: seq<Byte>, pos: nat, bs: seq<Byte>) {
    pos + |bs| <= |data| && data[pos..pos + |bs|] == bs
  }

  lemma AtParts(data: seq<Byte>, pos: nat, a: seq<Byte>, b: seq<Byte>)
    requires At(data, pos, a + b)
    ensures At(data, pos, a) && At(data, pos + |a|, b)
  {
    assert data[pos..pos + |a|] == (a + b)[..|a|];
    assert data[pos + |a|..pos + |a| + |b|] == (a + b)[|a|..];
  }

  /** Reading a field whose number and body are at the cursor. */
  lemma ReadsAt(c: Cursor, f: Field, w: nat)
    requires !c.failed && w == Width(KindOf(f)) && c.Has(w) && Value(c.data[c.pos..c.pos + w]) == Number(f)
    requires f.Bytes? ==> At(c.data, c.pos + 4, f.s)
    ensures ReadField(c, KindOf(f)) == (c.(pos := c.pos + w + if f.Bytes? then |f.s| else 0), Read(f))
  {}

  /** One field, wherever it stands and whatever follows. */
  lemma FieldRoundTrip(data: seq<Byte>, pos: nat, f: Field)
    requires InType(f) && At(data, pos, Written(f))
    ensures ReadField(Cursor(data, pos, false), KindOf(f)) == (Cursor(data, pos + |Written(f)|, false), Read(f))
  {
    WrittenFront(f);
    SmallNumber(Number(f), Width(KindOf(f)));
    FrontAndBody(data, pos, f, LowBytes(Number(f), Width(KindOf(f))), if f.Bytes? then f.s else []);
  }

  lemma FrontAndBody(data: seq<Byte>, pos: nat, f: Field, front: seq<Byte>, body: seq<Byte>)
    requires At(data, pos, front + body) && |front| == Width(KindOf(f)) && Value(front) == Number(f)
    requires body == if f.Bytes? then f.s else []
    ensures ReadField(Cursor(data, pos, false), KindOf(f)) == (Cursor(data, pos + |front + body|, false), Read(f))
  {
    AtParts(data, pos, front, body);
    ReadsAt(Cursor(data, pos, false), f, |front|);
  }

  lemma LengthPrefix(n: nat)
    ensures Value(LowBytes(n % Two32, 4)) == n % Two32 <= n
  {
    Powers();
    SmallNumber(n % Two32, 4);
  }

  /** What comes back of a byte string: as many bytes as its cut length says. */
  lemma BytesBack(s: seq<Byte>)
    ensures ReadField(Cursor(Written(Bytes(s)), 0, false), KBytes).1 == Read(Bytes(s[..|s| % Two32]))
  {
    var data := Written(Bytes(s));
    var len := |s| % Two32;
    LengthPrefix(|s|);
    assert data[0..4] == LowBytes(len, 4);
    assert data[4..4 + len] == s[..len];
  }

  /** A byte string comes back exactly when its length fits the prefix. */
  lemma BytesRoundTripIff(s: seq<Byte>)
    ensures ReadField(Cursor(Written(Bytes(s)), 0, false), KBytes).1 == Read(Bytes(s)) <==> |s| < Two32
  {
    BytesBack(s);
    assert |s| < Two32 <==> |s| % Two32 == |s|;
    assert |s[..|s| % Two32]| == |s| % Two32 && s[..|s|] == s;
  }

  /** A byte string whose number can be read, but not its body. */
  lemma ShortBody(c: Cursor, len: nat)
    requires c.Has(4) && Value(c.data[c.pos..c.pos + 4]) == len && |c.data| < c.pos + 4 + len
    ensures FailedIn(c.data, ReadField(c, KBytes))
  {}

  lemma ShortFront(c: Cursor, k: Kind)
    requires c.Valid() && |c.data| < c.pos + Width(k)
    ensures FailedIn(c.data, ReadField(c, k))
  {}

  /** A field that is cut off fails. */
  lemma CutFieldFails(data: seq<Byte>, pos: nat, f: Field)
    requires InType(f) && CutShort(data, pos, Written(f))
    ensures FailedIn(data, ReadField(Cursor(data, pos, false), KindOf(f)))
  {
    var w := Width(KindOf(f));
    var c := Cursor(data, pos, false);
    WrittenFront(f);
    if |data| < pos + w {
      ShortFront(c, KindOf(f));
    } else {
      assert data[pos..pos + w] == data[pos..][..w] == LowBytes(Number(f), w);
      SmallNumber(Number(f), w);
      assert f.Bytes?;
      ShortBody(c, |f.s|);
    }
  }

  lemma PrefixParts(data: seq<Byte>, pos: nat, a: seq<Byte>, b: seq<Byte>)
    requires pos + |a| <= |data| <= pos + |a| + |b| && data[pos..] == (a + b)[..|data| - pos]
    ensures At(data, pos, a) && data[pos + |a|..] == b[..|data| - pos - |a|]
  {
    assert data[pos..pos + |a|] == data[pos..][..|a|];
    assert data[pos + |a|..] == data[pos..][|a|..];
  }

  // ---- lists of fields, for any format that is read back field by field ----

  type Reader = (Cursor, Kind) -> (Cursor, Answer)
  type Writer = Field -> seq<Byte>

  ghost predicate ReadsBack(read: Reader, write: Writer) {
    forall data, pos: nat, f | InType(f) && At(data, pos, write(f)) ::
      read(Cursor(data, pos, false), KindOf(f)) == (Cursor(data, pos + |write(f)|, false), Read(f))
  }

  /** From pos on there is a strict prefix of bs. */
  predicate CutShort(data: seq<Byte>, pos: nat, bs: seq<Byte>) {
    pos <= |data| < pos + |bs| && data[pos..] == bs[..|data| - pos]
  }

  ghost predicate FailsShort(read: Reader, write: Writer) {
    forall data, pos: nat, f | InType(f) && CutShort(data, pos, write(f)) ::
      FailedIn(data, read(Cursor(data, pos, false), KindOf(f)))
  }

  predicate FailedIn(data: seq<Byte>, r: (Cursor, Answer)) {
    r.1 == Fail && Stuck(data, r.0)
  }

  /** The cursor has failed, with a position inside the data. */
  predicate Stuck(data: seq<Byte>, c: Cursor) {
    c.failed && c.data == data && c.pos <= |data|
  }

  ghost predicate Latches(read: Reader) {
    forall c: Cursor, k | c.failed :: read(c, k) == (c, Fail)
  }

  function WrittenAll(write: Writer, fs: seq<Field>): seq<Byte> {
    if fs == [] then [] else write(fs[0]) + WrittenAll(write, fs[1..])
  }

  /** Reading one field after the other, failures included. */
  function ReadAll(read: Reader, c: Cursor, fs: seq<Field>): (r: (Cursor, seq<Answer>))
    ensures |r.1| == |fs|
    decreases |fs|
  {
    if fs == [] then (c, [])
    else
      var (next, a) := read(c, KindOf(fs[0]));
      var (last, rest) := ReadAll(read, next, fs[1..]);
      (last, [a] + rest)
  }

  predicate AllInType(fs: seq<Field>) {
    fs == [] || (InType(fs[0]) && AllInType(fs[1..]))
  }

  /** The answers when all fields are read, with their values. */
  function AllRead(fs: seq<Field>): (answers: seq<Answer>)
    ensures |answers| == |fs| && forall k | 0 <= k < |fs| :: answers[k] == Read(fs[k])
  {
    if fs == [] then [] else [Read(fs[0])] + AllRead(fs[1..])
  }

  function AllFail(n: nat): (answers: seq<Answer>)
    ensures |answers| == n && forall k | 0 <= k < n :: answers[k] == Fail
  {
    if n == 0 then [] else [Fail] + AllFail(n - 1)
  }

  /** Correct up to field j, failed from there on. */
  function FailsFrom(fs: seq<Field>, j: nat): (answers: seq<Answer>)
    requires j < |fs|
    ensures |answers| == |fs| && forall k | 0 <= k < |fs| :: answers[k] == if k < j then Read(fs[k]) else Fail
  {
    if j == 0 then AllFail(|fs|) else [Read(fs[0])] + FailsFrom(fs[1..], j - 1)
  }

  lemma {:induction false} ListReadsBack(read: Reader, write: Writer, data: seq<Byte>, pos: nat, fs: seq<Field>)
    requires ReadsBack(read, write) && AllInType(fs) && At(data, pos, WrittenAll(write, fs))
    ensures ReadAll(read, Cursor(data, pos, false), fs)
         == (Cursor(data, pos + |WrittenAll(write, fs)|, false), AllRead(fs))
    decreases |fs|
  {
    if fs != [] {
      AtParts(data, pos, write(fs[0]), WrittenAll(write, fs[1..]));
      ListReadsBack(read, write, data, pos + |write(fs[0])|, fs[1..]);
    }
  }

  /** The list is read back from exactly the bytes written for it, and the reader is at their end then. */
  ghost predicate ReadsWhole(read: Reader, write: Writer, fs: seq<Field>) {
    var data := WrittenAll(write, fs);
    ReadAll(read, Cursor(data, 0, false), fs) == (Cursor(data, |data|, false), AllRead(fs))
  }

  lemma ListReadsWhole(read: Reader, write: Writer, fs: seq<Field>)
    requires ReadsBack(read, write) && AllInType(fs)
    ensures ReadsWhole(read, write, fs)
  {
    var data := WrittenAll(write, fs);
    assert data[0..0 + |data|] == data;
    ListReadsBack(read, write, data, 0, fs);
  }

  lemma {:induction false} ListStaysFailed(read: Reader, c: Cursor, fs: seq<Field>)
    requires Latches(read) && c.failed
    ensures ReadAll(read, c, fs) == (c, AllFail(|fs|))
    decreases |fs|
  {
    if fs != [] {
      ListStaysFailed(read, c, fs[1..]);
    }
  }

  lemma {:induction false} ListFailsShort(read: Reader, write: Writer, data: seq<Byte>, pos: nat, fs: seq<Field>)
    returns (j: nat, last: Cursor)
    requires ReadsBack(read, write) && FailsShort(read, write) && Latches(read)
    requires AllInType(fs) && CutShort(data, pos, WrittenAll(write, fs))
    ensures j < |fs| && Stuck(data, last) && ReadAll(read, Cursor(data, pos, false), fs) == (last, FailsFrom(fs, j))
    decreases |fs|
  {
    assert fs != [];
    var first, later := write(fs[0]), WrittenAll(write, fs[1..]);
    if |data| < pos + |first| {
      assert (first + later)[..|data| - pos] == first[..|data| - pos];
      j, last := 0, read(Cursor(data, pos, false), KindOf(fs[0])).0;
      assert FailedIn(data, read(Cursor(data, pos, false), KindOf(fs[0])));
      ListStaysFailed(read, last, fs[1..]);
    } else {
      PrefixParts(data, pos, first, later);
      j, last := ListFailsShort(read, write, data, pos + |first|, fs[1..]);
      j := j + 1;
    }
  }

  // ---- the laws of this format ----

  lemma FormatReadsBack()
    ensures ReadsBack(ReadField, Written)
  {
    forall data, pos: nat, f | InType(f) && At(data, pos, Written(f))
      ensures ReadField(Cursor(data, pos, false), KindOf(f)) == (Cursor(data, pos + |Written(f)|, false), Read(f))
    {
      FieldRoundTrip(data, pos, f);
    }
  }

  lemma FormatFailsShort()
    ensures FailsShort(ReadField, Written)
  {
    forall data, pos: nat, f | InType(f) && CutShort(data, pos, Written(f))
      ensures FailedIn(data, ReadField(Cursor(data, pos, false), KindOf(f)))
    {
      CutFieldFails(data, pos, f);
    }
  }

  lemma FormatLatches()
    ensures Latches(ReadField)
  {}

  /** A list of fields, wherever it stands, is read back as it was written, and the reader ends exactly behind it. */
  lemma ListRoundTrip(data: seq<Byte>, pos: nat, fs: seq<Field>)
    requires AllInType(fs) && At(data, pos, WrittenAll(Written, fs))
    ensures ReadAll(ReadField, Cursor(data, pos, false), fs)
         == (Cursor(data, pos + |WrittenAll(Written, fs)|, false), AllRead(fs))
  {
    FormatReadsBack();
    ListReadsBack(ReadField, Written, data, pos, fs);
  }

  /** In particular, for exactly the written bytes, at the end. */
  lemma WholeRoundTrip(fs: seq<Field>)
    requires AllInType(fs)
    ensures ReadsWhole(ReadField, Written, fs)
  {
    FormatReadsBack();
    ListReadsWhole(ReadField, Written, fs);
  }

  /**
   On every strict prefix some read fails: the fields before it are read correctly, it and all later
   ones fail, and the position stays inside the data.
   */
  lemma StrictPrefixFails(fs: seq<Field>, n: nat) returns (j: nat, last: Cursor)
    requires AllInType(fs) && n < |WrittenAll(Written, fs)|
    ensures j < |fs| && last.failed && last.pos <= n
    ensures ReadAll(ReadField, Cursor(WrittenAll(Written, fs)[..n], 0, false), fs) == (last, FailsFrom(fs, j))
  {
    var data := WrittenAll(Written, fs)[..n];
    assert data[0..] == data;
    FormatReadsBack();
    FormatFailsShort();
    FormatLatches();
    j, last := ListFailsShort(ReadField, Written, data, 0, fs);
  }

  /**
   The header promises that a failed read leaves the position where it was.  That is so exactly when
   it is not a byte string whose length prefix could be read.
   */
  lemma FailKeepsPositionIff(c: Cursor, k: Kind)
    requires ReadField(c, k).1 == Fail
    ensures ReadField(c, k).0.pos == c.pos <==> !(k.KBytes? && c.Has(4))
  {}

  /** A fresh reader on a length prefix of five and a body of one byte: the read fails, at position 4. */
  lemma FailCanMovePosition()
    ensures var data: seq<Byte> := [5, 0, 0, 0, 1];
            && Cursor(data, 0, false).Valid()
            && ReadField(Cursor(data, 0, false), KBytes) == (Cursor(data, 4, true), Fail)
  {
    var data: seq<Byte> := [5, 0, 0, 0, 1];
    assert LowBytes(5, 4) == [5, 0, 0, 0] by {
      assert LowBytes(5, 1) == [5] && LowBytes(5, 2) == [5, 0] && LowBytes(5, 3) == [5, 0, 0];
    }
    Powers();
    SmallNumber(5, 4);
    assert data[0..4] == LowBytes(5, 4);
  }
}
