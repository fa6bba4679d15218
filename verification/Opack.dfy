/** The HomeKit Data Stream's value codec (internal/hksv/opack.go): values, the
    tree of forms they may be written in, the encoder and the decoder. */

module OpackValues {
  import opened Wrappers
  import opened Bytes

  /** A 64-bit float by its bits; one read from 32 bits is kept as those, its
      widening left symbolic. */
  datatype Float = Double(bits: seq<byte>) | Single(single: seq<byte>)

  datatype Value =
    | Nil
    | Bool(b: bool)
    | Int(n: int)
    | Real(f: Float)
    | Str(s: seq<byte>)
    | Data(d: seq<byte>)
    | Arr(items: seq<Value>)
    | Dict(entries: map<seq<byte>, Value>)

  function Width(p: nat): nat
    requires p <= 3
  {
    if p == 0 then 1 else if p == 1 then 2 else if p == 2 then 4 else 8
  }

  /** Two's complement. */
  function Signed(bits: seq<byte>): int {
    var u := FromLe(bits);
    if 2 * u < Pow256(|bits|) then u else u - Pow256(|bits|)
  }

  /** How the length of a string or of data is given: in the tag, or on 1, 2, 4
      or 8 bytes. */
  datatype Form = Inline | Long(p: nat, len: seq<byte>)

  /** The forms of a primitive, each with the tags that announce it. */
  datatype Leaf =
    | NilLeaf
    | BoolLeaf(b: bool)
    | UuidLeaf(uuid: seq<byte>)
    | DoubleLeaf(six: bool, bits: seq<byte>)
    | SingleLeaf(single: seq<byte>)
    | MinusOne
    | Small(n: nat)
    | IntLeaf(p: nat, twos: seq<byte>)
    | StrLeaf(form: Form, s: seq<byte>)
    | DataLeaf(form: Form, d: seq<byte>)
  {
    predicate Valid() {
      match this
      case UuidLeaf(d) => |d| == 16
      case DoubleLeaf(_, bits) => |bits| == 8
      case SingleLeaf(bits) => |bits| == 4
      case Small(n) => n <= 39
      case IntLeaf(p, bits) => p <= 3 && |bits| == Width(p)
      case StrLeaf(form, s) => FormFits(form, s)
      case DataLeaf(form, d) => FormFits(form, d)
      case _ => true
    }

    function Value(): Value
    {
      match this
      case NilLeaf => Nil
      case BoolLeaf(b) => Bool(b)
      case UuidLeaf(d) => Data(d)
      case DoubleLeaf(_, bits) => Real(Double(bits))
      case SingleLeaf(bits) => Real(Single(bits))
      case MinusOne => Int(-1)
      case Small(n) => Int(n)
      case IntLeaf(_, bits) => Int(Signed(bits))
      case StrLeaf(_, s) => Str(s)
      case DataLeaf(_, d) => Data(d)
    }

    function Bytes(): seq<byte>
      requires Valid()
    {
      match this
      case NilLeaf => [0x04]
      case BoolLeaf(b) => [if b then 0x01 else 0x02]
      case UuidLeaf(d) => [0x05] + d
      case DoubleLeaf(six, bits) => [if six then 0x06 else 0x36] + bits
      case SingleLeaf(bits) => [0x35] + bits
      case MinusOne => [0x07]
      case Small(n) => [0x08 + n]
      case IntLeaf(p, bits) => [0x30 + p] + bits
      case StrLeaf(form, s) => Blob(0x40, form, s)
      case DataLeaf(form, d) => Blob(0x70, form, d)
    }

    /** The decoder tracks every primitive but nil. */
    function Track(): seq<Value> { if NilLeaf? then [] else [Value()] }
  }

  predicate FormFits(form: Form, s: seq<byte>) {
    match form
    case Inline => |s| <= 32
    case Long(p, len) => p <= 3 && |len| == Width(p) && FromLe(len) == |s|
  }

  /** The tags of the long forms come right after the inline ones, 0 to 32. */
  const LONG := 0x21

  function Blob(base: nat, form: Form, s: seq<byte>): seq<byte>
    requires FormFits(form, s) && base <= 0x70
  {
    match form
    case Inline => [base + |s|] + s
    case Long(p, len) => [base + LONG + p] + len + s
  }

  /** What reading takes off: n bytes, if there are that many. */
  function TakeBytes(b: seq<byte>, n: nat): Option<(seq<byte>, seq<byte>)> {
    if |b| < n then None else Some((b[..n], b[n..]))
  }

  function TakeLong(b: seq<byte>, p: nat): Option<(Form, seq<byte>, seq<byte>)>
    requires p <= 3
  {
    match TakeBytes(b, Width(p))
    case None => None
    case Some((len, rest)) =>
      match TakeBytes(rest, FromLe(len))
      case None => None
      case Some((d, after)) => Some((Long(p, len), d, after))
  }

  /** A string or data, t its tag from the base of its kind. */
  function BlobAt(t: nat, s: seq<byte>): Option<(Form, seq<byte>, seq<byte>)>
    requires t <= LONG + 3
  {
    if t >= LONG then TakeLong(s, t - LONG)
    else match TakeBytes(s, t)
      case None => None
      case Some((d, rest)) => Some((Inline, d, rest))
  }

  function ShortAt(tag: byte, s: seq<byte>): Option<(Leaf, seq<byte>)> {
    if tag == 0x01 then Some((BoolLeaf(true), s))
    else if tag == 0x02 then Some((BoolLeaf(false), s))
    else if tag == 0x04 then Some((NilLeaf, s))
    else if tag == 0x07 then Some((MinusOne, s))
    else if 0x08 <= tag <= 0x2f then Some((Small(tag - 0x08), s))
    else None
  }

  predicate FixedTag(tag: byte) { tag in {0x05, 0x06, 0x30, 0x31, 0x32, 0x33, 0x35, 0x36} }

  function FixedSize(tag: byte): nat
    requires FixedTag(tag)
  {
    if tag == 0x05 then 16
    else if tag == 0x35 || tag == 0x32 then 4
    else if tag == 0x30 then 1
    else if tag == 0x31 then 2
    else 8
  }

  function FixedLeaf(tag: byte, d: seq<byte>): Leaf
    requires FixedTag(tag)
  {
    if tag == 0x05 then UuidLeaf(d)
    else if tag == 0x35 then SingleLeaf(d)
    else if tag == 0x06 || tag == 0x36 then DoubleLeaf(tag == 0x06, d)
    else IntLeaf(tag - 0x30, d)
  }

  /** The primitive at the head of b, by its tag; None for a tag that announces
      none, or bytes missing. */
  function LeafAt(b: seq<byte>): Option<(Leaf, seq<byte>)> {
    if b == [] then None
    else
      var tag, s := b[0], b[1..];
      if 0x40 <= tag <= 0x40 + LONG + 3 then
        match BlobAt(tag - 0x40, s)
        case None => None
        case Some((form, d, rest)) => Some((StrLeaf(form, d), rest))
      else if 0x70 <= tag <= 0x70 + LONG + 3 then
        match BlobAt(tag - 0x70, s)
        case None => None
        case Some((form, d, rest)) => Some((DataLeaf(form, d), rest))
      else if FixedTag(tag) then
        match TakeBytes(s, FixedSize(tag))
        case None => None
        case Some((d, rest)) => Some((FixedLeaf(tag, d), rest))
      else ShortAt(tag, s)
  }

  lemma {:induction false} TakeBack(d: seq<byte>, rest: seq<byte>)
    ensures TakeBytes(d + rest, |d|) == Some((d, rest))
  {
    assert (d + rest)[..|d|] == d && (d + rest)[|d|..] == rest;
  }

  lemma {:induction false} LongBack(len: seq<byte>, s: seq<byte>, rest: seq<byte>, p: nat)
    requires p <= 3 && |len| == Width(p) && FromLe(len) == |s|
    ensures TakeLong(len + (s + rest), p) == Some((Long(p, len), s, rest))
  {
    TakeBack(len, s + rest);
    TakeBack(s, rest);
  }

  lemma {:induction false} InlineBack(base: nat, s: seq<byte>, rest: seq<byte>)
    requires |s| <= 32 && base <= 0x70
    ensures ([base + |s|] + s + rest)[0] == base + |s|
    ensures BlobAt(|s|, ([base + |s|] + s + rest)[1..]) == Some((Inline, s, rest))
  {
    assert ([base + |s|] + s + rest)[1..] == s + rest;
    TakeBack(s, rest);
  }

  lemma {:induction false} BlobBack(base: nat, form: Form, s: seq<byte>, rest: seq<byte>)
    requires FormFits(form, s) && base <= 0x70
    ensures var b := Blob(base, form, s) + rest;
      base <= b[0] <= base + LONG + 3 && BlobAt(b[0] - base, b[1..]) == Some((form, s, rest))
  {
    match form {
      case Inline => InlineBack(base, s, rest);
      case Long(p, len) =>
        TagThree(base + LONG + p, len, s, rest);
        LongBack(len, s, rest, p);
    }
  }

  lemma {:induction false} TagThree(tag: byte, len: seq<byte>, s: seq<byte>, rest: seq<byte>)
    ensures ([tag] + len + s + rest)[0] == tag && ([tag] + len + s + rest)[1..] == len + (s + rest)
  {
  }

  lemma {:induction false} FixedBack(tag: byte, d: seq<byte>, rest: seq<byte>)
    requires FixedTag(tag) && |d| == FixedSize(tag)
    ensures LeafAt([tag] + d + rest) == Some((FixedLeaf(tag, d), rest))
  {
    assert ([tag] + d + rest)[1..] == d + rest;
    TakeBack(d, rest);
  }

  /** A primitive's form is read back, whatever follows. */
  lemma {:induction false} LeafBack(l: Leaf, rest: seq<byte>)
    requires l.Valid()
    ensures LeafAt(l.Bytes() + rest) == Some((l, rest))
  {
    match l {
      case StrLeaf(form, s) => BlobBack(0x40, form, s, rest);
      case DataLeaf(form, d) => BlobBack(0x70, form, d, rest);
      case UuidLeaf(d) => FixedBack(0x05, d, rest);
      case DoubleLeaf(six, d) => FixedBack(if six then 0x06 else 0x36, d, rest);
      case SingleLeaf(d) => FixedBack(0x35, d, rest);
      case IntLeaf(p, d) => FixedBack(0x30 + p, d, rest);
      case _ => assert (l.Bytes() + rest)[1..] == rest;
    }
  }

  lemma {:induction false} BlobForth(base: nat, t: nat, s: seq<byte>)
    requires t <= LONG + 3 && base <= 0x70 && BlobAt(t, s).Some?
    ensures var (form, d, rest) := BlobAt(t, s).value;
      FormFits(form, d) && [base + t] + s == Blob(base, form, d) + rest
  {
    if t >= LONG {
      var n := Width(t - LONG);
      assert s == s[..n] + s[n..];
    }
  }

  lemma {:induction false} FixedForth(tag: byte, s: seq<byte>)
    requires FixedTag(tag) && FixedSize(tag) <= |s|
    ensures var l := FixedLeaf(tag, s[..FixedSize(tag)]);
      l.Valid() && [tag] + s == l.Bytes() + s[FixedSize(tag)..]
  {
    var n := FixedSize(tag);
    assert FixedLeaf(tag, s[..n]).Bytes() == [tag] + s[..n];
    assert s == s[..n] + s[n..];
  }

  lemma {:induction false} StrForth(tag: byte, s: seq<byte>)
    requires 0x40 <= tag <= 0x40 + LONG + 3 && BlobAt(tag - 0x40, s).Some?
    ensures var (form, d, rest) := BlobAt(tag - 0x40, s).value;
      StrLeaf(form, d).Valid() && [tag] + s == StrLeaf(form, d).Bytes() + rest
  {
    BlobForth(0x40, tag - 0x40, s);
  }

  lemma {:induction false} DataForth(tag: byte, s: seq<byte>)
    requires 0x70 <= tag <= 0x70 + LONG + 3 && BlobAt(tag - 0x70, s).Some?
    ensures var (form, d, rest) := BlobAt(tag - 0x70, s).value;
      DataLeaf(form, d).Valid() && [tag] + s == DataLeaf(form, d).Bytes() + rest
  {
    BlobForth(0x70, tag - 0x70, s);
  }

  lemma {:induction false} ShortForth(tag: byte, s: seq<byte>)
    requires ShortAt(tag, s).Some?
    ensures var (l, rest) := ShortAt(tag, s).value; l.Valid() && [tag] + s == l.Bytes() + rest
  {
  }

  /** And only a primitive's form is read as one. */
  lemma {:induction false} LeafForth(b: seq<byte>)
    requires LeafAt(b).Some?
    ensures var (l, rest) := LeafAt(b).value; l.Valid() && b == l.Bytes() + rest
  {
    var tag, s := b[0], b[1..];
    assert b == [tag] + s;
    if 0x40 <= tag <= 0x40 + LONG + 3 {
      StrForth(tag, s);
    } else if 0x70 <= tag <= 0x70 + LONG + 3 {
      DataForth(tag, s);
    } else if FixedTag(tag) {
      FixedForth(tag, s);
    } else {
      ShortForth(tag, s);
    }
  }
}
