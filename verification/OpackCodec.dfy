/** Reading and writing values: the decoder against the grammar of all the ways
    a value may be written, the encoder as one of them. */

module OpackGrammar {
  import opened Wrappers
  import opened Bytes
  import opened OpackValues

  /** A way to write a value: a primitive, a reference back to one tracked, a
      counted or ended array, a counted or ended dictionary, written key after
      key, each before its value. */
  datatype Code =
    | Prim(l: Leaf)
    | Ref(i: nat)
    | ArrCode(items: Codes, ended: bool)
    | DictCode(fields: Fields, ended: bool)

  datatype Codes = NoCode | MoreCodes(head: Code, tail: Codes) {
    function Count(): nat { if NoCode? then 0 else 1 + tail.Count() }
  }

  datatype Fields = NoField | MoreFields(key: Code, value: Code, rest: Fields) {
    function Count(): nat { if NoField? then 0 else 1 + rest.Count() }
  }

  function Tag(base: nat, n: nat, ended: bool): byte
    requires base <= 0xe0 && (ended || n <= 14)
  {
    if ended then base + 15 else base + n
  }

  function End(ended: bool): seq<byte> { if ended then [0x03] else [] }

  function BytesOf(c: Code): seq<byte> {
    match c
    case Prim(l) => if l.Valid() then l.Bytes() else []
    case Ref(i) => if i <= 0x2f then [0xa0 + i] else []
    case ArrCode(items, ended) =>
      if ended || items.Count() <= 14 then
        [Tag(0xd0, items.Count(), ended)] + BytesOfAll(items) + End(ended)
      else []
    case DictCode(fields, ended) =>
      if ended || fields.Count() <= 14 then
        [Tag(0xe0, fields.Count(), ended)] + BytesOfFields(fields) + End(ended)
      else []
  }

  function BytesOfAll(cs: Codes): seq<byte> {
    match cs
    case NoCode => []
    case MoreCodes(c, tail) => BytesOf(c) + BytesOfAll(tail)
  }

  function BytesOfFields(fs: Fields): seq<byte> {
    match fs
    case NoField => []
    case MoreFields(k, v, rest) => BytesOf(k) + BytesOf(v) + BytesOfFields(rest)
  }

  /** The fields in the order read, added to a map: a key again replaces its value. */
  function Build(m: map<seq<byte>, Value>, fields: seq<(seq<byte>, Value)>): map<seq<byte>, Value>
    decreases |fields|
  {
    if fields == [] then m else Build(m[fields[0].0 := fields[0].1], fields[1..])
  }

  /** What a code says after the primitives tracked so far, and what is tracked
      then; None for one that is not well formed. */
  function Meaning(c: Code, tr: seq<Value>): Option<(Value, seq<Value>)> {
    match c
    case Prim(l) => if l.Valid() then Some((l.Value(), tr + l.Track())) else None
    case Ref(i) => if i < |tr| && i <= 0x2f then Some((tr[i], tr)) else None
    case ArrCode(items, ended) =>
      if !ended && items.Count() > 14 then None
      else (match MeaningAll(items, tr)
            case None => None
            case Some((vs, t)) => Some((Arr(vs), t)))
    case DictCode(fields, ended) =>
      if !ended && fields.Count() > 14 then None
      else (match MeaningFields(fields, tr)
            case None => None
            case Some((fs, t)) => Some((Dict(Build(map[], fs)), t)))
  }

  function MeaningAll(cs: Codes, tr: seq<Value>): Option<(seq<Value>, seq<Value>)> {
    match cs
    case NoCode => Some(([], tr))
    case MoreCodes(c, tail) =>
      match Meaning(c, tr)
      case None => None
      case Some((v, t)) =>
        match MeaningAll(tail, t)
        case None => None
        case Some((vs, t')) => Some(([v] + vs, t'))
  }

  function MeaningFields(cs: Fields, tr: seq<Value>): Option<(seq<(seq<byte>, Value)>, seq<Value>)> {
    match cs
    case NoField => Some(([], tr))
    case MoreFields(kc, vc, rest) =>
      match Meaning(kc, tr)
      case None => None
      case Some((k, t)) =>
        if !k.Str? then None
        else match Meaning(vc, t)
          case None => None
          case Some((v, t')) =>
            match MeaningFields(rest, t')
            case None => None
            case Some((fs, t'')) => Some(([(k.s, v)] + fs, t''))
  }
}

module OpackDecoder {
  import opened Wrappers
  import opened Bytes
  import opened OpackValues
  import opened OpackGrammar

  /** What was read, what is left, what is tracked. */
  datatype Read<T> = Read(v: T, rest: seq<byte>, tracked: seq<Value>)

  /** left counts the items of a counted array or dictionary; None for an ended one. */
  function Left(tag: byte, base: byte): Option<nat>
    requires base <= tag
  {
    if tag == base + 15 then None else Some(tag - base)
  }

  predicate Ended(left: Option<nat>, b: seq<byte>) {
    if left.Some? then left.value == 0 else b != [] && b[0] == 0x03
  }

  function AfterEnd(left: Option<nat>, b: seq<byte>): seq<byte>
    requires Ended(left, b)
  {
    if left.Some? then b else b[1..]
  }

  function Less(left: Option<nat>): Option<nat>
    requires left.Some? ==> left.value > 0
  {
    if left.Some? then Some(left.value - 1) else None
  }

  function DecodeLeaf(b: seq<byte>, tr: seq<Value>): (r: Option<Read<Value>>)
    ensures r.Some? ==> |r.value.rest| < |b|
  {
    match LeafAt(b)
    case None => None
    case Some((l, rest)) =>
      LeafForth(b);
      Some(Read(l.Value(), rest, tr + l.Track()))
  }

  function Decode(b: seq<byte>, tr: seq<Value>): (r: Option<Read<Value>>)
    ensures r.Some? ==> |r.value.rest| < |b|
    decreases |b|, 0
  {
    if b == [] then None
    else if b[0] < 0xa0 || b[0] > 0xef then DecodeLeaf(b, tr)
    else if b[0] <= 0xcf then
      if b[0] - 0xa0 < |tr| then Some(Read(tr[b[0] - 0xa0], b[1..], tr)) else None
    else if b[0] <= 0xdf then
      (match DecodeItems(b[1..], tr, Left(b[0], 0xd0))
       case None => None
       case Some(r) => Some(Read(Arr(r.v), r.rest, r.tracked)))
    else
      (match DecodeFields(b[1..], tr, Left(b[0], 0xe0))
       case None => None
       case Some(r) => Some(Read(Dict(Build(map[], r.v)), r.rest, r.tracked)))
  }

  function DecodeItems(b: seq<byte>, tr: seq<Value>, left: Option<nat>): (r: Option<Read<seq<Value>>>)
    ensures r.Some? ==> |r.value.rest| <= |b|
    decreases |b|, 1
  {
    if Ended(left, b) then Some(Read([], AfterEnd(left, b), tr))
    else match Decode(b, tr)
      case None => None
      case Some(x) =>
        match DecodeItems(x.rest, x.tracked, Less(left))
        case None => None
        case Some(r) => Some(Read([x.v] + r.v, r.rest, r.tracked))
  }

  function DecodeFields(b: seq<byte>, tr: seq<Value>, left: Option<nat>): (r: Option<Read<seq<(seq<byte>, Value)>>>)
    ensures r.Some? ==> |r.value.rest| <= |b|
    decreases |b|, 1
  {
    if Ended(left, b) then Some(Read([], AfterEnd(left, b), tr))
    else match Decode(b, tr)
      case None => None
      case Some(k) =>
        if !k.v.Str? then None
        else match Decode(k.rest, k.tracked)
          case None => None
          case Some(x) =>
            match DecodeFields(x.rest, x.tracked, Less(left))
            case None => None
            case Some(r) => Some(Read([(k.v.s, x.v)] + r.v, r.rest, r.tracked))
  }

  lemma {:induction false} PrimTag(l: Leaf, rest: seq<byte>)
    requires l.Valid()
    ensures (l.Bytes() + rest)[0] < 0xa0 && l.Bytes()[0] != 0x03 && l.Bytes() != []
  {
  }

  lemma {:induction false} NeverTheEndMark(c: Code, tr: seq<Value>)
    requires Meaning(c, tr).Some?
    ensures BytesOf(c) != [] && BytesOf(c)[0] != 0x03
  {
    if c.Prim? { PrimTag(c.l, []); }
  }

  lemma {:induction false} PrimBack(l: Leaf, tr: seq<Value>, rest: seq<byte>)
    requires l.Valid()
    ensures Decode(l.Bytes() + rest, tr) == Some(Read(l.Value(), rest, tr + l.Track()))
  {
    LeafBack(l, rest);
    PrimTag(l, rest);
  }

  /** However a value is written, it is read back, with what follows it left and
      its primitives tracked. */
  lemma {:induction false} DecodeBack(c: Code, tr: seq<Value>, rest: seq<byte>)
    requires Meaning(c, tr).Some?
    ensures var (v, t) := Meaning(c, tr).value; Decode(BytesOf(c) + rest, tr) == Some(Read(v, rest, t))
    decreases c, 0
  {
    match c {
      case Prim(l) => PrimBack(l, tr, rest);
      case Ref(i) => assert (BytesOf(c) + rest)[1..] == rest;
      case ArrCode(items, ended) =>
        ItemsBack(items, tr, if ended then None else Some(items.Count()), rest);
        ArrBack(items, ended, tr, rest);
      case DictCode(fields, ended) =>
        FieldsBack(fields, tr, if ended then None else Some(fields.Count()), rest);
        DictBack(fields, ended, tr, rest);
    }
  }

  lemma {:induction false} TagFirst(tag: byte, a: seq<byte>, e: seq<byte>, rest: seq<byte>)
    ensures var b := [tag] + a + e + rest; b != [] && b[0] == tag && b[1..] == a + (e + rest)
  {
  }

  lemma {:induction false} ArrBack(items: Codes, ended: bool, tr: seq<Value>, rest: seq<byte>)
    requires (ended || items.Count() <= 14) && MeaningAll(items, tr).Some?
    requires DecodeItems(BytesOfAll(items) + (End(ended) + rest), tr, if ended then None else Some(items.Count()))
             == Some(Read(MeaningAll(items, tr).value.0, rest, MeaningAll(items, tr).value.1))
    ensures var (vs, t) := MeaningAll(items, tr).value;
      Decode(BytesOf(ArrCode(items, ended)) + rest, tr) == Some(Read(Arr(vs), rest, t))
  {
    var b := BytesOf(ArrCode(items, ended)) + rest;
    TagFirst(Tag(0xd0, items.Count(), ended), BytesOfAll(items), End(ended), rest);
  }

  lemma {:induction false} DictBack(fields: Fields, ended: bool, tr: seq<Value>, rest: seq<byte>)
    requires (ended || fields.Count() <= 14) && MeaningFields(fields, tr).Some?
    requires DecodeFields(BytesOfFields(fields) + (End(ended) + rest), tr, if ended then None else Some(fields.Count()))
             == Some(Read(MeaningFields(fields, tr).value.0, rest, MeaningFields(fields, tr).value.1))
    ensures var (fs, t) := MeaningFields(fields, tr).value;
      Decode(BytesOf(DictCode(fields, ended)) + rest, tr) == Some(Read(Dict(Build(map[], fs)), rest, t))
  {
    var b := BytesOf(DictCode(fields, ended)) + rest;
    TagFirst(Tag(0xe0, fields.Count(), ended), BytesOfFields(fields), End(ended), rest);
  }

  lemma {:induction false} ItemsBack(cs: Codes, tr: seq<Value>, left: Option<nat>, rest: seq<byte>)
    requires MeaningAll(cs, tr).Some? && (left.Some? ==> left.value == cs.Count())
    ensures var (vs, t) := MeaningAll(cs, tr).value;
      DecodeItems(BytesOfAll(cs) + (End(left.None?) + rest), tr, left) == Some(Read(vs, rest, t))
    decreases cs, 1
  {
    var tail := End(left.None?) + rest;
    var b := BytesOfAll(cs) + tail;
    match cs {
      case NoCode =>
        assert b == tail;
        assert AfterEnd(left, b) == rest;
      case MoreCodes(c, more) =>
        var next := BytesOfAll(more) + tail;
        assert b == BytesOf(c) + next;
        NeverTheEndMark(c, tr);
        DecodeBack(c, tr, next);
        ItemsBack(more, Meaning(c, tr).value.1, Less(left), rest);
    }
  }

  lemma {:induction false} FieldsBack(cs: Fields, tr: seq<Value>, left: Option<nat>, rest: seq<byte>)
    requires MeaningFields(cs, tr).Some? && (left.Some? ==> left.value == cs.Count())
    ensures var (fs, t) := MeaningFields(cs, tr).value;
      DecodeFields(BytesOfFields(cs) + (End(left.None?) + rest), tr, left) == Some(Read(fs, rest, t))
    decreases cs, 1
  {
    var tail := End(left.None?) + rest;
    var b := BytesOfFields(cs) + tail;
    match cs {
      case NoField =>
        assert b == tail;
        assert AfterEnd(left, b) == rest;
      case MoreFields(k, v, more) =>
        var next := BytesOfFields(more) + tail;
        assert b == BytesOf(k) + (BytesOf(v) + next);
        NeverTheEndMark(k, tr);
        DecodeBack(k, tr, BytesOf(v) + next);
        var t := Meaning(k, tr).value.1;
        DecodeBack(v, t, next);
        FieldsBack(more, Meaning(v, t).value.1, Less(left), rest);
    }
  }

  lemma {:induction false} PrimForth(b: seq<byte>, tr: seq<Value>) returns (l: Leaf)
    requires b != [] && (b[0] < 0xa0 || b[0] > 0xef) && Decode(b, tr).Some?
    ensures l.Valid() && Decode(b, tr) == Some(Read(l.Value(), Decode(b, tr).value.rest, tr + l.Track()))
    ensures b == l.Bytes() + Decode(b, tr).value.rest
  {
    LeafForth(b);
    l := LeafAt(b).value.0;
  }

  /** And nothing else is read: bytes the decoder takes are one way to write the
      value it gives. */
  lemma {:induction false} DecodeForth(b: seq<byte>, tr: seq<Value>) returns (c: Code)
    requires Decode(b, tr).Some?
    ensures var r := Decode(b, tr).value; b == BytesOf(c) + r.rest && Meaning(c, tr) == Some((r.v, r.tracked))
    decreases |b|, 2
  {
    if b[0] < 0xa0 || b[0] > 0xef {
      var l := PrimForth(b, tr);
      c := Prim(l);
    } else if b[0] <= 0xcf {
      c := Ref(b[0] - 0xa0);
      assert b == [b[0]] + b[1..];
    } else if b[0] <= 0xdf {
      c := ArrForth(b, tr);
    } else {
      c := DictForth(b, tr);
    }
  }

  lemma {:induction false} ArrForth(b: seq<byte>, tr: seq<Value>) returns (c: Code)
    requires b != [] && 0xd0 <= b[0] <= 0xdf && Decode(b, tr).Some?
    ensures var r := Decode(b, tr).value; b == BytesOf(c) + r.rest && Meaning(c, tr) == Some((r.v, r.tracked))
    decreases |b|, 1
  {
    var left := Left(b[0], 0xd0);
    var cs := ItemsForth(b[1..], tr, left);
    c := ArrCode(cs, left.None?);
    assert Tag(0xd0, cs.Count(), left.None?) == b[0];
    TagFirst(b[0], BytesOfAll(cs), End(left.None?), Decode(b, tr).value.rest);
    assert b == [b[0]] + b[1..];
  }

  lemma {:induction false} DictForth(b: seq<byte>, tr: seq<Value>) returns (c: Code)
    requires b != [] && 0xe0 <= b[0] <= 0xef && Decode(b, tr).Some?
    ensures var r := Decode(b, tr).value; b == BytesOf(c) + r.rest && Meaning(c, tr) == Some((r.v, r.tracked))
    decreases |b|, 1
  {
    var left := Left(b[0], 0xe0);
    var cs := FieldsForth(b[1..], tr, left);
    c := DictCode(cs, left.None?);
    assert Tag(0xe0, cs.Count(), left.None?) == b[0];
    TagFirst(b[0], BytesOfFields(cs), End(left.None?), Decode(b, tr).value.rest);
    assert b == [b[0]] + b[1..];
  }

  lemma {:induction false} AppendThree(a: seq<byte>, b: seq<byte>, c: seq<byte>)
    ensures (a + b) + c == a + (b + c)
  {
  }

  lemma {:induction false} ItemsStep(b: seq<byte>, tr: seq<Value>, left: Option<nat>)
    requires !Ended(left, b) && DecodeItems(b, tr, left).Some?
    ensures Decode(b, tr).Some?
    ensures var x := Decode(b, tr).value;
      var r := DecodeItems(x.rest, x.tracked, Less(left));
      r.Some? && DecodeItems(b, tr, left) == Some(Read([x.v] + r.value.v, r.value.rest, r.value.tracked))
  {
  }

  lemma {:induction false} ItemsForth(b: seq<byte>, tr: seq<Value>, left: Option<nat>) returns (cs: Codes)
    requires DecodeItems(b, tr, left).Some?
    ensures var r := DecodeItems(b, tr, left).value;
      b == BytesOfAll(cs) + (End(left.None?) + r.rest) && MeaningAll(cs, tr) == Some((r.v, r.tracked))
      && (left.Some? ==> left.value == cs.Count())
    decreases |b|, 3
  {
    if Ended(left, b) {
      cs := NoCode;
      assert b == End(left.None?) + AfterEnd(left, b);
    } else {
      ItemsStep(b, tr, left);
      var x := Decode(b, tr).value;
      var c := DecodeForth(b, tr);
      var more := ItemsForth(x.rest, x.tracked, Less(left));
      cs := MoreCodes(c, more);
      AppendThree(BytesOf(c), BytesOfAll(more), End(left.None?) + DecodeItems(b, tr, left).value.rest);
    }
  }

  lemma {:induction false} FieldsStep(b: seq<byte>, tr: seq<Value>, left: Option<nat>)
    requires !Ended(left, b) && DecodeFields(b, tr, left).Some?
    ensures Decode(b, tr).Some? && Decode(b, tr).value.v.Str?
    ensures var k := Decode(b, tr).value;
      Decode(k.rest, k.tracked).Some?
    ensures var k := Decode(b, tr).value;
      var x := Decode(k.rest, k.tracked).value;
      var r := DecodeFields(x.rest, x.tracked, Less(left));
      r.Some? && DecodeFields(b, tr, left) == Some(Read([(k.v.s, x.v)] + r.value.v, r.value.rest, r.value.tracked))
  {
  }

  lemma {:induction false} AppendFour(a: seq<byte>, b: seq<byte>, c: seq<byte>, d: seq<byte>)
    ensures (a + b + c) + d == a + (b + (c + d))
  {
  }

  lemma {:induction false} FieldsForth(b: seq<byte>, tr: seq<Value>, left: Option<nat>) returns (cs: Fields)
    requires DecodeFields(b, tr, left).Some?
    ensures var r := DecodeFields(b, tr, left).value;
      b == BytesOfFields(cs) + (End(left.None?) + r.rest) && MeaningFields(cs, tr) == Some((r.v, r.tracked))
      && (left.Some? ==> left.value == cs.Count())
    decreases |b|, 3
  {
    if Ended(left, b) {
      cs := NoField;
      assert b == End(left.None?) + AfterEnd(left, b);
    } else {
      FieldsStep(b, tr, left);
      var k := Decode(b, tr).value;
      var kc := DecodeForth(b, tr);
      var x := Decode(k.rest, k.tracked).value;
      var xc := DecodeForth(k.rest, k.tracked);
      var more := FieldsForth(x.rest, x.tracked, Less(left));
      cs := MoreFields(kc, xc, more);
      AppendFour(BytesOf(kc), BytesOf(xc), BytesOfFields(more), End(left.None?) + DecodeFields(b, tr, left).value.rest);
    }
  }

  /** The decoder reads exactly the well-formed codes: one, with the given value,
      what is left and what is tracked, for all it reads, and it reads them all. */
  lemma {:induction false} DecodesExactlyTheGrammar(b: seq<byte>, tr: seq<Value>, v: Value, rest: seq<byte>,
                                                    t: seq<Value>)
    ensures Decode(b, tr) == Some(Read(v, rest, t)) <==>
      exists c :: b == BytesOf(c) + rest && Meaning(c, tr) == Some((v, t))
  {
    if Decode(b, tr) == Some(Read(v, rest, t)) {
      var c := DecodeForth(b, tr);
    }
    forall c | b == BytesOf(c) + rest && Meaning(c, tr) == Some((v, t))
      ensures Decode(b, tr) == Some(Read(v, rest, t))
    {
      DecodeBack(c, tr, rest);
    }
  }
}

module OpackEncoder {
  import opened Wrappers
  import opened Bytes
  import opened OpackValues
  import opened OpackGrammar
  import opened OpackDecoder

  // The order of the keys, byte by byte.

  predicate LexLeq(a: seq<byte>, b: seq<byte>) {
    a == [] || (b != [] && (a[0] < b[0] || (a[0] == b[0] && LexLeq(a[1..], b[1..]))))
  }

  lemma {:induction false} LexTotal(a: seq<byte>, b: seq<byte>)
    ensures LexLeq(a, b) || LexLeq(b, a)
  {
    if a != [] && b != [] { LexTotal(a[1..], b[1..]); }
  }

  lemma {:induction false} LexTransitive(a: seq<byte>, b: seq<byte>, c: seq<byte>)
    requires LexLeq(a, b) && LexLeq(b, c)
    ensures LexLeq(a, c)
  {
    if a != [] && a[0] == b[0] == c[0] { LexTransitive(a[1..], b[1..], c[1..]); }
  }

  ghost predicate IsLeast(k: seq<byte>, s: set<seq<byte>>) { k in s && forall x :: x in s ==> LexLeq(k, x) }

  lemma {:induction false} LeastKey(s: set<seq<byte>>) returns (k: seq<byte>)
    requires s != {}
    ensures IsLeast(k, s)
    decreases |s|
  {
    var x :| x in s;
    k := x;
    if s - {x} == {} {
      assert s == {x};
      LexTotal(x, x);
    } else {
      var m := LeastKey(s - {x});
      LexTotal(m, x);
      if LexLeq(m, x) { k := m; }
      forall y | y in s ensures LexLeq(k, y) {
        LexTotal(x, x);
        if y != x && k == x { LexTransitive(x, m, y); }
      }
    }
  }

  /** The keys in order, each once. */
  ghost function SortedKeys(s: set<seq<byte>>): (keys: seq<seq<byte>>)
    ensures forall k :: k in keys <==> k in s
    decreases |s|
  {
    if s == {} then []
    else
      var k0 := LeastKeyOf(s);
      [k0] + SortedKeys(s - {k0})
  }

  ghost function LeastKeyOf(s: set<seq<byte>>): (k: seq<byte>)
    requires s != {}
    ensures IsLeast(k, s)
  {
    assert exists k :: IsLeast(k, s) by { var k := LeastKey(s); }
    var k :| IsLeast(k, s);
    k
  }

  // The encoder.

  /** n in two's complement, below p. */
  function Twos(n: int, p: nat): nat
    requires 0 <= n + p
  {
    if n >= 0 then n else n + p
  }

  function EncodeInt(n: int): seq<byte>
    requires -0x8000_0000_0000_0000 <= n < 0x8000_0000_0000_0000
  {
    if n == -1 then [0x07]
    else if 0 <= n <= 39 then [0x08 + n]
    else if -0x80 <= n <= 0x7f then [0x30] + Le(Twos(n, 0x100), 1)
    else if -0x8000 <= n <= 0x7fff then [0x31] + Le(Twos(n, 0x1_0000), 2)
    else if -0x8000_0000 <= n <= 0x7fff_ffff then [0x32] + Le(Twos(n, 0x1_0000_0000), 4)
    else [0x33] + Le(Twos(n, 0x1_0000_0000_0000_0000), 8)
  }

  function EncodeBytes(v: seq<byte>, inline: nat, long: nat): seq<byte>
    requires inline <= 0x70 && long <= 0x91
  {
    var n := |v|;
    if n <= 32 then [inline + n] + v
    else if n <= 0xff then [long, n] + v
    else if n <= 0xffff then [long + 1] + Le(n, 2) + v
    else [long + 2] + Le(n % U32, 4) + v
  }

  /** What the encoder takes: 64-bit integers and floats, strings and data whose
      length 32 bits hold. */
  predicate Encodable(v: Value) {
    match v
    case Int(n) => -0x8000_0000_0000_0000 <= n < 0x8000_0000_0000_0000
    case Real(f) => f.Double? && |f.bits| == 8
    case Str(s) => |s| < U32
    case Data(d) => |d| < U32
    case Arr(items) => forall i :: 0 <= i < |items| ==> Encodable(items[i])
    case Dict(m) => forall k :: k in m ==> |k| < U32 && Encodable(m[k])
    case _ => true
  }

  ghost function Encode(v: Value): seq<byte>
    requires Encodable(v)
    decreases v, 2
  {
    match v
    case Nil => [0x04]
    case Bool(b) => if b then [0x01] else [0x02]
    case Int(n) => EncodeInt(n)
    case Real(f) => [0x36] + f.bits
    case Str(s) => EncodeBytes(s, 0x40, 0x61)
    case Data(d) => EncodeBytes(d, 0x70, 0x91)
    case Arr(items) =>
      (if |items| <= 12 then [0xd0 + |items|] else [0xdf]) + EncodeItems(v, 0) + End(|items| > 12)
    case Dict(m) =>
      var keys := SortedKeys(m.Keys);
      (if |keys| <= 14 then [0xe0 + |keys|] else [0xef]) + EncodeFields(v, keys) + End(|keys| > 14)
  }

  /** The items from index i on. */
  ghost function EncodeItems(v: Value, i: nat): seq<byte>
    requires Encodable(v) && v.Arr? && i <= |v.items|
    decreases v, 1, |v.items| - i
  {
    if i == |v.items| then [] else
      assert v.items[i] < v;
      Encode(v.items[i]) + EncodeItems(v, i + 1)
  }

  ghost function EncodeFields(v: Value, keys: seq<seq<byte>>): seq<byte>
    requires Encodable(v) && v.Dict? && forall k :: k in keys ==> k in v.entries
    decreases v, 1, |keys|
  {
    if keys == [] then []
    else
      assert keys[0] in keys;
      EncodeBytes(keys[0], 0x40, 0x61) + Encode(v.entries[keys[0]]) + EncodeFields(v, keys[1..])
  }

  lemma {:induction false} SortedKeysAre(s: set<seq<byte>>)
    ensures forall i, j :: 0 <= i < j < |SortedKeys(s)| ==> SortedKeys(s)[i] != SortedKeys(s)[j]
    ensures forall i, j :: 0 <= i < j < |SortedKeys(s)| ==> LexLeq(SortedKeys(s)[i], SortedKeys(s)[j])
    decreases |s|
  {
    if s != {} {
      var k := LeastKeyOf(s);
      SortedKeysAre(s - {k});
      var more := SortedKeys(s - {k});
      assert SortedKeys(s) == [k] + more;
      assert forall j :: 0 <= j < |more| ==> more[j] in more;
    }
  }

  // The code the encoder chooses.

  lemma {:induction false} SignedBack(n: int, k: nat, p: nat)
    requires p == Pow256(k) && 0 <= 2 * n + p && 2 * n < p
    ensures Signed(Le(Twos(n, p), k)) == n
  {
    LeRoundTrip(Twos(n, p), k);
  }

  function IntLeafOf(n: int): Leaf
    requires -0x8000_0000_0000_0000 <= n < 0x8000_0000_0000_0000
  {
    if n == -1 then MinusOne
    else if 0 <= n <= 39 then Small(n)
    else if -0x80 <= n <= 0x7f then IntLeaf(0, Le(Twos(n, 0x100), 1))
    else if -0x8000 <= n <= 0x7fff then IntLeaf(1, Le(Twos(n, 0x1_0000), 2))
    else if -0x8000_0000 <= n <= 0x7fff_ffff then IntLeaf(2, Le(Twos(n, 0x1_0000_0000), 4))
    else IntLeaf(3, Le(Twos(n, 0x1_0000_0000_0000_0000), 8))
  }

  lemma {:induction false} IntIsLeaf(n: int)
    requires -0x8000_0000_0000_0000 <= n < 0x8000_0000_0000_0000
    ensures IntLeafOf(n).Valid() && IntLeafOf(n).Value() == Int(n) && IntLeafOf(n).Bytes() == EncodeInt(n)
  {
    PowValues();
    if n == -1 || 0 <= n <= 39 {
    } else if -0x80 <= n <= 0x7f {
      SignedBack(n, 1, 0x100);
    } else if -0x8000 <= n <= 0x7fff {
      SignedBack(n, 2, 0x1_0000);
    } else if -0x8000_0000 <= n <= 0x7fff_ffff {
      SignedBack(n, 4, U32);
    } else {
      SignedBack(n, 8, 0x1_0000_0000_0000_0000);
    }
  }

  function FormOf(n: nat): Form {
    if n <= 32 then Inline
    else if n <= 0xff then Long(0, Le(n, 1))
    else if n <= 0xffff then Long(1, Le(n, 2))
    else Long(2, Le(n % U32, 4))
  }

  lemma {:induction false} BytesAreBlob(v: seq<byte>, base: nat)
    requires |v| < U32 && base <= 0x70
    ensures FormFits(FormOf(|v|), v) && EncodeBytes(v, base, base + LONG) == Blob(base, FormOf(|v|), v)
  {
    PowValues();
    if 32 < |v| {
      LeRoundTrip(|v|, if |v| <= 0xff then 1 else if |v| <= 0xffff then 2 else 4);
    }
    if 32 < |v| <= 0xff {
      assert Le(|v|, 1) == [|v|];
      assert [base + LONG, |v|] + v == [base + LONG] + [|v|] + v;
    }
  }

  ghost function CodeOf(v: Value): Code
    requires Encodable(v)
    decreases v, 2
  {
    match v
    case Nil => Prim(NilLeaf)
    case Bool(b) => Prim(BoolLeaf(b))
    case Int(n) => Prim(IntLeafOf(n))
    case Real(f) => Prim(DoubleLeaf(false, f.bits))
    case Str(s) => Prim(StrLeaf(FormOf(|s|), s))
    case Data(d) => Prim(DataLeaf(FormOf(|d|), d))
    case Arr(items) => ArrCode(CodesOf(v, 0), |items| > 12)
    case Dict(m) =>
      DictCode(FieldsOf(v, SortedKeys(m.Keys)), |SortedKeys(m.Keys)| > 14)
  }

  ghost function CodesOf(v: Value, i: nat): (cs: Codes)
    requires Encodable(v) && v.Arr? && i <= |v.items|
    ensures cs.Count() == |v.items| - i
    decreases v, 1, |v.items| - i
  {
    if i == |v.items| then NoCode
    else
      assert v.items[i] < v;
      MoreCodes(CodeOf(v.items[i]), CodesOf(v, i + 1))
  }

  ghost function FieldsOf(v: Value, keys: seq<seq<byte>>): (cs: Fields)
    requires Encodable(v) && v.Dict? && forall k :: k in keys ==> k in v.entries
    ensures cs.Count() == |keys|
    decreases v, 1, |keys|
  {
    if keys == [] then NoField
    else
      assert keys[0] in keys;
      MoreFields(Prim(StrLeaf(FormOf(|keys[0]|), keys[0])), CodeOf(v.entries[keys[0]]), FieldsOf(v, keys[1..]))
  }

  /** What a value leaves tracked: its primitives, in the order written. */
  ghost function Prims(v: Value): seq<Value>
    decreases v, 2
  {
    match v
    case Nil => []
    case Arr(items) => PrimsOfItems(v, 0)
    case Dict(m) =>
      PrimsOfFields(v, SortedKeys(m.Keys))
    case _ => [v]
  }

  ghost function PrimsOfItems(v: Value, i: nat): seq<Value>
    requires v.Arr? && i <= |v.items|
    decreases v, 1, |v.items| - i
  {
    if i == |v.items| then [] else
      assert v.items[i] < v;
      Prims(v.items[i]) + PrimsOfItems(v, i + 1)
  }

  ghost function PrimsOfFields(v: Value, keys: seq<seq<byte>>): seq<Value>
    requires v.Dict? && forall k :: k in keys ==> k in v.entries
    decreases v, 1, |keys|
  {
    if keys == [] then []
    else
      assert keys[0] in keys;
      [Str(keys[0])] + Prims(v.entries[keys[0]]) + PrimsOfFields(v, keys[1..])
  }

  lemma {:induction false} LeafCode(v: Value, tr: seq<Value>)
    requires Encodable(v) && !v.Arr? && !v.Dict?
    ensures BytesOf(CodeOf(v)) == Encode(v) && Meaning(CodeOf(v), tr) == Some((v, tr + Prims(v)))
  {
    match v {
      case Int(n) => IntIsLeaf(n);
      case Str(s) => BytesAreBlob(s, 0x40);
      case Data(d) => BytesAreBlob(d, 0x70);
      case _ =>
    }
  }

  /** The encoder writes one of the codes of the value. */
  lemma {:induction false} EncodeIsCode(v: Value, tr: seq<Value>)
    requires Encodable(v)
    ensures BytesOf(CodeOf(v)) == Encode(v) && Meaning(CodeOf(v), tr) == Some((v, tr + Prims(v)))
    decreases v, 2
  {
    match v {
      case Arr(items) =>
        ItemsAreCodes(v, 0, tr);
        assert items[0..] == items;
      case Dict(m) =>
        var keys := SortedKeys(m.Keys);
        SortedKeysAre(m.Keys);
        FieldsAreCodes(v, keys, tr);
        BuildsMap(m, keys);
      case _ => LeafCode(v, tr);
    }
  }

  lemma {:induction false} MoreItems(c: Code, cs: Codes, tr: seq<Value>, v: Value, p: seq<Value>, vs: seq<Value>,
                                     ps: seq<Value>)
    requires Meaning(c, tr) == Some((v, tr + p)) && MeaningAll(cs, tr + p) == Some((vs, tr + p + ps))
    ensures MeaningAll(MoreCodes(c, cs), tr) == Some(([v] + vs, tr + (p + ps)))
  {
    assert tr + p + ps == tr + (p + ps);
  }

  lemma {:induction false} ItemsAreCodes(v: Value, i: nat, tr: seq<Value>)
    requires Encodable(v) && v.Arr? && i <= |v.items|
    ensures BytesOfAll(CodesOf(v, i)) == EncodeItems(v, i)
    ensures MeaningAll(CodesOf(v, i), tr) == Some((v.items[i..], tr + PrimsOfItems(v, i)))
    decreases v, 1, |v.items| - i
  {
    if i < |v.items| {
      var x := v.items[i];
      assert x < v && Encodable(x);
      EncodeIsCode(x, tr);
      ItemsAreCodes(v, i + 1, tr + Prims(x));
      ItemsUnfold(v, i);
      MoreItems(CodeOf(x), CodesOf(v, i + 1), tr, x, Prims(x), v.items[i + 1..], PrimsOfItems(v, i + 1));
      TailOf(v.items, i);
    } else {
      assert tr + [] == tr && v.items[i..] == [];
    }
  }

  lemma {:induction false} TailOf<T>(s: seq<T>, i: nat)
    requires i < |s|
    ensures s[i..] == [s[i]] + s[i + 1..]
  {
  }

  lemma {:induction false} ItemsUnfold(v: Value, i: nat)
    requires Encodable(v) && v.Arr? && i < |v.items|
    ensures CodesOf(v, i) == MoreCodes(CodeOf(v.items[i]), CodesOf(v, i + 1))
    ensures EncodeItems(v, i) == Encode(v.items[i]) + EncodeItems(v, i + 1)
    ensures PrimsOfItems(v, i) == Prims(v.items[i]) + PrimsOfItems(v, i + 1)
  {
  }

  ghost function Listed(m: map<seq<byte>, Value>, keys: seq<seq<byte>>): seq<(seq<byte>, Value)>
    requires forall k :: k in keys ==> k in m
  {
    if keys == [] then []
    else
      assert keys[0] in keys;
      [(keys[0], m[keys[0]])] + Listed(m, keys[1..])
  }

  lemma {:induction false} MoreFieldsMean(kc: Code, vc: Code, cs: Fields, tr: seq<Value>, k: seq<byte>, v: Value,
                                          p: seq<Value>,
                       fs: seq<(seq<byte>, Value)>, ps: seq<Value>)
    requires Meaning(kc, tr) == Some((Str(k), tr + [Str(k)])) &&
             Meaning(vc, tr + [Str(k)]) == Some((v, tr + [Str(k)] + p))
    requires MeaningFields(cs, tr + [Str(k)] + p) == Some((fs, tr + [Str(k)] + p + ps))
    ensures MeaningFields(MoreFields(kc, vc, cs), tr) == Some(([(k, v)] + fs, tr + ([Str(k)] + p + ps)))
  {
    assert tr + [Str(k)] + p + ps == tr + ([Str(k)] + p + ps);
  }

  lemma {:induction false} FieldsAreCodes(v: Value, keys: seq<seq<byte>>, tr: seq<Value>)
    requires Encodable(v) && v.Dict? && forall k :: k in keys ==> k in v.entries
    ensures BytesOfFields(FieldsOf(v, keys)) == EncodeFields(v, keys)
    ensures MeaningFields(FieldsOf(v, keys), tr) == Some((Listed(v.entries, keys), tr + PrimsOfFields(v, keys)))
    decreases v, 1, |keys|
  {
    if keys != [] {
      var k := keys[0];
      assert k in keys;
      var x := v.entries[k];
      var kc := Prim(StrLeaf(FormOf(|k|), k));
      var t := tr + [Str(k)];
      LeafCode(Str(k), tr);
      EncodeIsCode(x, t);
      FieldsAreCodes(v, keys[1..], t + Prims(x));
      MoreFieldsMean(kc, CodeOf(x), FieldsOf(v, keys[1..]), tr, k, x, Prims(x), Listed(v.entries, keys[1..]),
                     PrimsOfFields(v, keys[1..]));
    } else {
      assert tr + [] == tr;
    }
  }

  ghost function Chosen(m: map<seq<byte>, Value>, keys: seq<seq<byte>>): map<seq<byte>, Value>
    requires forall k :: k in keys ==> k in m
  {
    map k | k in keys :: m[k]
  }

  lemma {:induction false} ChosenStep(m0: map<seq<byte>, Value>, m: map<seq<byte>, Value>, k: seq<byte>,
                                      keys: seq<seq<byte>>)
    requires k in m && k !in keys && forall x :: x in keys ==> x in m
    ensures forall x :: x in [k] + keys ==> x in m
    ensures m0[k := m[k]] + Chosen(m, keys) == m0 + Chosen(m, [k] + keys)
  {
  }

  lemma {:induction false} ListedStep(m: map<seq<byte>, Value>, k: seq<byte>, keys: seq<seq<byte>>)
    requires k in m && forall x :: x in keys ==> x in m
    ensures forall x :: x in [k] + keys ==> x in m
    ensures Listed(m, [k] + keys) == [(k, m[k])] + Listed(m, keys)
  {
    assert ([k] + keys)[1..] == keys && ([k] + keys)[0] == k;
  }

  lemma {:induction false} BuildAdds(m0: map<seq<byte>, Value>, m: map<seq<byte>, Value>, keys: seq<seq<byte>>)
    requires forall k :: k in keys ==> k in m
    requires forall i, j :: 0 <= i < j < |keys| ==> keys[i] != keys[j]
    requires forall k :: k in m0 ==> k !in keys
    ensures Build(m0, Listed(m, keys)) == m0 + Chosen(m, keys)
    decreases |keys|
  {
    if keys == [] {
      assert m0 + Chosen(m, keys) == m0;
    } else {
      var k, more := keys[0], keys[1..];
      assert k in keys && keys == [k] + more;
      assert k !in more;
      ListedStep(m, k, more);
      BuildStep(m0, k, m[k], Listed(m, more));
      BuildAdds(m0[k := m[k]], m, more);
      ChosenStep(m0, m, k, more);
    }
  }

  lemma {:induction false} BuildStep(m0: map<seq<byte>, Value>, k: seq<byte>, v: Value, fields: seq<(seq<byte>, Value)>)
    ensures Build(m0, [(k, v)] + fields) == Build(m0[k := v], fields)
  {
    assert ([(k, v)] + fields)[1..] == fields;
  }

  lemma {:induction false} BuildsMap(m: map<seq<byte>, Value>, keys: seq<seq<byte>>)
    requires keys == SortedKeys(m.Keys)
    ensures (forall k :: k in keys ==> k in m) && Build(map[], Listed(m, keys)) == m
  {
    SortedKeysAre(m.Keys);
    BuildAdds(map[], m, keys);
    assert map[] + Chosen(m, keys) == m;
  }

  /** What is encoded reads back as it was, whatever follows it and whatever was
      tracked before. */
  lemma {:induction false} RoundTrip(v: Value, tr: seq<Value>, rest: seq<byte>)
    requires Encodable(v)
    ensures Decode(Encode(v) + rest, tr) == Some(Read(v, rest, tr + Prims(v)))
  {
    EncodeIsCode(v, tr);
    DecodeBack(CodeOf(v), tr, rest);
  }

  /** So no two values are written alike, nor one as the start of another. */
  lemma {:induction false} PrefixFree(v: Value, w: Value, rest: seq<byte>)
    requires Encodable(v) && Encodable(w) && Encode(w) == Encode(v) + rest
    ensures v == w && rest == []
  {
    RoundTrip(v, [], rest);
    RoundTrip(w, [], []);
    assert Encode(w) + [] == Encode(w);
  }
}

module OpackClass {
  import opened Wrappers
  import opened Bytes
  import opened OpackValues
  import opened OpackGrammar
  import opened OpackDecoder

  /** The decoder as the source has it: the bytes left and the primitives seen. */
  class Decoder {
    var b: seq<byte>
    var tracked: seq<Value>

    constructor (b: seq<byte>)
      ensures this.b == b && tracked == []
    {
      this.b, tracked := b, [];
    }

    /** Reads one value; None is the error that ends the decoding. */
    method ReadValue() returns (r: Option<Value>)
      modifies this
      ensures match Decode(old(b), old(tracked))
        case None => r.None?
        case Some(x) => r == Some(x.v) && b == x.rest && tracked == x.tracked
      decreases |b|, 0
    {
      if b == [] { return None; }
      var tag := b[0];
      if tag < 0xa0 || tag > 0xef {
        match LeafAt(b) {
          case None => return None;
          case Some((l, rest)) =>
            b, tracked := rest, tracked + l.Track();
            return Some(l.Value());
        }
      }
      b := b[1..];
      if tag <= 0xcf {
        if tag - 0xa0 >= |tracked| { return None; }
        return Some(tracked[tag - 0xa0]);
      } else if tag <= 0xdf {
        var items := ReadItems(Left(tag, 0xd0));
        return if items.Some? then Some(Arr(items.value)) else None;
      } else {
        var m := ReadFields(Left(tag, 0xe0));
        return if m.Some? then Some(Dict(m.value)) else None;
      }
    }

    /** The items of an array, so many or up to the end mark. */
    method ReadItems(left: Option<nat>) returns (r: Option<seq<Value>>)
      modifies this
      ensures match DecodeItems(old(b), old(tracked), left)
        case None => r.None?
        case Some(x) => r == Some(x.v) && b == x.rest && tracked == x.tracked
      decreases |b|, 1
    {
      var arr: seq<Value> := [];
      var todo := left;
      while !Ended(todo, b)
        invariant |b| <= old(|b|)
        invariant var all := DecodeItems(old(b), old(tracked), left);
          match DecodeItems(b, tracked, todo)
          case None => all.None?
          case Some(x) => all.Some? && all.value.v == arr + x.v
                          && all.value.rest == x.rest && all.value.tracked == x.tracked
        decreases |b|
      {
        var v := ReadValue();
        if v.None? { return None; }
        ghost var more := DecodeItems(b, tracked, Less(todo));
        if more.Some? { assert (arr + [v.value]) + more.value.v == arr + ([v.value] + more.value.v); }
        arr, todo := arr + [v.value], Less(todo);
      }
      assert arr + [] == arr;
      b := AfterEnd(todo, b);
      r := Some(arr);
    }

    /** The fields of a dictionary; a key that is no string is an error. */
    method ReadFields(left: Option<nat>) returns (r: Option<map<seq<byte>, Value>>)
      modifies this
      ensures match DecodeFields(old(b), old(tracked), left)
        case None => r.None?
        case Some(x) => r == Some(Build(map[], x.v)) && b == x.rest && tracked == x.tracked
      decreases |b|, 1
    {
      var m: map<seq<byte>, Value> := map[];
      var todo := left;
      while !Ended(todo, b)
        invariant |b| <= old(|b|)
        invariant var all := DecodeFields(old(b), old(tracked), left);
          match DecodeFields(b, tracked, todo)
          case None => all.None?
          case Some(x) => all.Some? && Build(map[], all.value.v) == Build(m, x.v)
                          && all.value.rest == x.rest && all.value.tracked == x.tracked
        decreases |b|
      {
        var k := ReadValue();
        if k.None? || !k.value.Str? { return None; }
        var v := ReadValue();
        if v.None? { return None; }
        m, todo := m[k.value.s := v.value], Less(todo);
      }
      b := AfterEnd(todo, b);
      r := Some(m);
    }
  }

  /** One dictionary from the start of b, and the rest. */
  method DecodeDict(b: seq<byte>) returns (r: Option<(map<seq<byte>, Value>, seq<byte>)>)
    ensures match Decode(b, [])
      case None => r.None?
      case Some(x) => r == if x.v.Dict? then Some((x.v.entries, x.rest)) else None
  {
    var d := new Decoder(b);
    var v := d.ReadValue();
    if v.None? || !v.value.Dict? { return None; }
    r := Some((v.value.entries, d.b));
  }
}
