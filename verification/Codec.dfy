/** Bounded binary fields, and the sticky writer and reader that move them. */
module Codec {
  import opened Basics
  import opened ByteBits
  import opened Bytes

  /** One encoded field; a text carries the bound it is written and read under. */
  datatype Field =
    | Number(width: nat, value: nat)
    | Flag(set_: bool)
    | Fixed(bytes: seq<byte>)
    | Text(text: seq<byte>, max: nat)

  datatype Shape = Numeric(width: nat) | Boolean | Sized(size: nat) | Bounded(max: nat)

  function ShapeOf(f: Field): Shape {
    match f
    case Number(width, _) => Numeric(width)
    case Flag(_) => Boolean
    case Fixed(bytes) => Sized(|bytes|)
    case Text(_, max) => Bounded(max)
  }

  function Shapes(fs: seq<Field>): (s: seq<Shape>)
    ensures |s| == |fs|
  {
    seq(|fs|, i requires 0 <= i < |fs| => ShapeOf(fs[i]))
  }

  /** The value fits its field. */
  predicate Fits(f: Field) {
    match f
    case Number(width, value) => value < Pow256(width)
    case Text(text, max) => |text| <= max && max < U32_LIMIT
    case _ => true
  }

  function FieldBytes(f: Field): seq<byte> {
    match f
    case Number(width, value) => Digits(value, width)
    case Flag(b) => [if b then 1 else 0]
    case Fixed(bytes) => bytes
    case Text(text, _) => U32(|text|) + text
  }

  function BytesOf(fs: seq<Field>): seq<byte>
    decreases |fs|
  {
    if fs == [] then [] else FieldBytes(fs[0]) + BytesOf(fs[1..])
  }

  /** Reads one field off the front; None when the bytes run out or a bound is exceeded. */
  function GetField(shape: Shape, s: seq<byte>): Option<(Field, seq<byte>)> {
    match shape
    case Numeric(width) => if |s| < width then None else Some((Number(width, FromDigits(s[..width])), s[width..]))
    case Boolean => if |s| < 1 then None else Some((Flag(s[0] != 0), s[1..]))
    case Sized(n) => if |s| < n then None else Some((Fixed(s[..n]), s[n..]))
    case Bounded(max) =>
      if |s| < 4 then None
      else
        var length := FromDigits(s[..4]);
        if length > max || |s| - 4 < length then None else Some((Text(s[4..4 + length], max), s[4 + length..]))
  }

  function Get(shapes: seq<Shape>, s: seq<byte>): (r: Option<(seq<Field>, seq<byte>)>)
    ensures r.Some? ==> |r.value.0| == |shapes|
    decreases |shapes|
  {
    if shapes == [] then Some(([], s))
    else match GetField(shapes[0], s)
      case None => None
      case Some((f, rest)) =>
        match Get(shapes[1..], rest)
        case None => None
        case Some((fs, last)) => Some(([f] + fs, last))
  }

  lemma TakeFront(a: seq<byte>, b: seq<byte>)
    ensures (a + b)[..|a|] == a && (a + b)[|a|..] == b
  {}

  lemma FieldReadsBack(f: Field, rest: seq<byte>)
    requires Fits(f)
    ensures GetField(ShapeOf(f), FieldBytes(f) + rest) == Some((f, rest))
  {
    hide FromDigits, Digits;
    TakeFront(FieldBytes(f), rest);
    match f
    case Number(width, value) => DigitsRoundTrip(value, width);
    case Flag(_) =>
    case Fixed(_) =>
    case Text(text, max) =>
      FieldRoundTrip(|text|);
      assert U32(|text|) + text + rest == U32(|text|) + (text + rest);
      TakeFront(U32(|text|), text + rest);
      TakeFront(text, rest);
  }

  ghost predicate AllFit(fs: seq<Field>) { forall i :: 0 <= i < |fs| ==> Fits(fs[i]) }

  /** Fields written one after the other are read back in order, whatever follows them. */
  lemma {:induction false} FieldsReadBack(fs: seq<Field>, rest: seq<byte>)
    requires AllFit(fs)
    ensures Get(Shapes(fs), BytesOf(fs) + rest) == Some((fs, rest))
    decreases |fs|
  {
    hide GetField, FieldBytes, Fits;
    if fs == [] {
      assert [] + rest == rest;
    } else {
      assert Fits(fs[0]);
      FieldReadsBack(fs[0], BytesOf(fs[1..]) + rest);
      assert FieldBytes(fs[0]) + BytesOf(fs[1..]) + rest == FieldBytes(fs[0]) + (BytesOf(fs[1..]) + rest);
      FieldsReadBack(fs[1..], rest);
      assert Shapes(fs)[1..] == Shapes(fs[1..]) && [fs[0]] + fs[1..] == fs;
    }
  }

  // ---- sequences of values ----

  /** How a value is written and read back off the front of a stream. */
  datatype Coder<!V> = Coder(put: V -> seq<byte>, get: seq<byte> -> Option<(V, seq<byte>)>)

  /** The value reads back exactly, whatever follows it. */
  ghost predicate Faithful<V>(c: Coder<V>, v: V) {
    forall rest :: c.get(c.put(v) + rest) == Some((v, rest))
  }

  function PutList<V>(c: Coder<V>, vs: seq<V>): seq<byte>
    decreases |vs|
  {
    if vs == [] then [] else c.put(vs[0]) + PutList(c, vs[1..])
  }

  function GetList<V>(c: Coder<V>, count: nat, s: seq<byte>): Option<(seq<V>, seq<byte>)> {
    if count == 0 then Some(([], s))
    else match c.get(s)
      case None => None
      case Some((v, rest)) =>
        match GetList(c, count - 1, rest)
        case None => None
        case Some((vs, last)) => Some(([v] + vs, last))
  }

  lemma {:induction false} ListReadsBack<V>(c: Coder<V>, vs: seq<V>, rest: seq<byte>)
    requires forall v :: v in vs ==> Faithful(c, v)
    ensures GetList(c, |vs|, PutList(c, vs) + rest) == Some((vs, rest))
    decreases |vs|
  {
    if vs == [] {
      assert [] + rest == rest;
    } else {
      assert Faithful(c, vs[0]);
      assert c.put(vs[0]) + PutList(c, vs[1..]) + rest == c.put(vs[0]) + (PutList(c, vs[1..]) + rest);
      ListReadsBack(c, vs[1..], rest);
      assert [vs[0]] + vs[1..] == vs;
    }
  }

  /** Every text is within its bound. */
  predicate TextsFit(fs: seq<Field>) { forall f :: f in fs && f.Text? ==> |f.text| <= f.max }

  lemma FitTexts(fs: seq<Field>)
    requires AllFit(fs)
    ensures TextsFit(fs)
  {}

  // ---- the sticky writer ----

  lemma Shift(done: seq<byte>, next: byte, rest: seq<byte>, before: seq<byte>)
    ensures done + ([next] + rest) == done + [next] + rest
    ensures before + done + [next] == before + (done + [next])
  {}

  class Writer {
    var buffer: seq<byte>
    var ok: bool

    constructor ()
      ensures buffer == [] && ok
    {
      buffer, ok := [], true;
    }

    method U8(value: byte)
      modifies this
      ensures ok == old(ok) && buffer == if ok then old(buffer) + [value] else old(buffer)
    {
      if !ok {
        return;
      }
      buffer := buffer + [value];
    }

    /** A number, low byte first. */
    method PutNumber(value: nat, width: nat)
      modifies this
      ensures ok == old(ok) && buffer == if ok then old(buffer) + Digits(value, width) else old(buffer)
    {
      hide Digits;
      var rest := value;
      ghost var done: seq<byte> := [];
      assert old(buffer) + done == old(buffer);
      for i := 0 to width
        invariant ok == old(ok) && |done| == i
        invariant done + Digits(rest, width - i) == Digits(value, width)
        invariant buffer == if ok then old(buffer) + done else old(buffer)
      {
        DigitsStep(rest, width - i);
        U8(rest % 256);
        Shift(done, rest % 256, Digits(rest / 256, width - i - 1), old(buffer));
        done := done + [rest % 256];
        rest := rest / 256;
      }
      assert Digits(rest, 0) == [];
      assert done + [] == done;
    }

    method Raw(bytes: seq<byte>)
      modifies this
      ensures ok == old(ok) && buffer == if ok then old(buffer) + bytes else old(buffer)
    {
      if !ok || |bytes| == 0 {
        assert old(buffer) + [] == old(buffer);
        return;
      }
      buffer := buffer + bytes;
    }

    /** A text under its bound; one that is too long fails the writer for good and writes nothing. */
    method Str(text: seq<byte>, max: nat)
      modifies this
      ensures ok == (old(ok) && |text| <= max)
      ensures buffer == if ok then old(buffer) + (U32(|text|) + text) else old(buffer)
    {
      if !ok {
        return;
      }
      if |text| > max {
        ok := false;
        return;
      }
      PutNumber(|text|, 4);
      Raw(text);
      assert old(buffer) + U32(|text|) + text == old(buffer) + (U32(|text|) + text);
    }

    method Put(f: Field)
      modifies this
      ensures ok == (old(ok) && (f.Text? ==> |f.text| <= f.max))
      ensures buffer == if ok then old(buffer) + FieldBytes(f) else old(buffer)
    {
      match f
      case Number(width, value) => PutNumber(value, width);
      case Flag(b) => U8(if b then 1 else 0);
      case Fixed(bytes) => Raw(bytes);
      case Text(text, max) => Str(text, max);
    }

    method PutAll(fs: seq<Field>)
      modifies this
      ensures ok == (old(ok) && TextsFit(fs))
      ensures ok ==> buffer == old(buffer) + BytesOf(fs)
    {
      hide FieldBytes;
      for i := 0 to |fs|
        invariant ok == (old(ok) && forall k :: 0 <= k < i && fs[k].Text? ==> |fs[k].text| <= fs[k].max)
        invariant ok ==> buffer + BytesOf(fs[i..]) == old(buffer) + BytesOf(fs)
      {
        ghost var before := buffer;
        assert fs[i..][1..] == fs[i + 1..] && fs[i..][0] == fs[i];
        Put(fs[i]);
        assert ok ==> before + (FieldBytes(fs[i]) + BytesOf(fs[i + 1..])) == buffer + BytesOf(fs[i + 1..]);
      }
      assert fs[|fs|..] == [];
    }
  }

  // ---- the sticky reader ----

  class Reader {
    const data: seq<byte>
    var offset: nat
    var ok: bool

    ghost predicate Valid()
      reads this
    {
      offset <= |data|
    }

    /** What is still to be read. */
    ghost function Rest(): seq<byte>
      reads this
      requires Valid()
    {
      data[offset..]
    }

    constructor (s: seq<byte>)
      ensures Valid() && data == s && offset == 0 && ok && Rest() == s
    {
      data, offset, ok := s, 0, true;
    }

    method U8() returns (b: byte)
      requires Valid()
      modifies this
      ensures Valid()
      ensures ok == (old(ok) && old(offset) < |data|)
      ensures if ok then b == data[old(offset)] && offset == old(offset) + 1 else b == 0 && offset == old(offset)
    {
      if !ok || offset >= |data| {
        ok := false;
        return 0;
      }
      b := data[offset];
      offset := offset + 1;
    }

    method TakeNumber(width: nat) returns (value: nat)
      requires Valid()
      modifies this
      ensures Valid()
      ensures ok == (old(ok) && |old(Rest())| >= width)
      ensures ok ==> value == FromDigits(old(Rest())[..width]) && Rest() == old(Rest())[width..]
    {
      ghost var s := Rest();
      var bytes: seq<byte> := [];
      for i := 0 to width
        invariant Valid() && |bytes| == i && (ok ==> old(ok))
        invariant old(ok) && !ok ==> |s| < width
        invariant ok ==> i <= |s| && bytes == s[..i] && Rest() == s[i..]
      {
        var b := U8();
        bytes := bytes + [b];
      }
      value := FromDigits(bytes);
    }

    method Raw(size: nat) returns (bytes: seq<byte>)
      requires Valid()
      modifies this
      ensures Valid()
      ensures ok == (old(ok) && |old(Rest())| >= size)
      ensures ok ==> bytes == old(Rest())[..size] && Rest() == old(Rest())[size..]
    {
      if !ok || size > |data| - offset {
        ok := false;
        return [];
      }
      bytes := data[offset..offset + size];
      offset := offset + size;
    }

    method Take(shape: Shape) returns (f: Field)
      requires Valid()
      modifies this
      ensures Valid()
      ensures ok == (old(ok) && GetField(shape, old(Rest())).Some?)
      ensures ok ==> GetField(shape, old(Rest())) == Some((f, Rest()))
    {
      match shape
      case Numeric(width) =>
        var value := TakeNumber(width);
        return Number(width, value);
      case Boolean =>
        var b := U8();
        return Flag(b != 0);
      case Sized(n) =>
        var bytes := Raw(n);
        return Fixed(bytes);
      case Bounded(max) =>
        var length := TakeNumber(4);
        if !ok {
          return Text([], max);
        }
        if length > max {
          ok := false;
          return Text([], max);
        }
        ghost var s := old(Rest());
        assert Rest() == s[4..];
        var text := Raw(length);
        assert |s| - 4 >= length ==> s[4..][..length] == s[4..4 + length] && s[4..][length..] == s[4 + length..];
        return Text(text, max);
    }

    method TakeAll(shapes: seq<Shape>) returns (fs: seq<Field>)
      requires Valid()
      modifies this
      ensures Valid()
      ensures |fs| == |shapes|
      ensures ok == (old(ok) && Get(shapes, old(Rest())).Some?)
      ensures ok ==> Get(shapes, old(Rest())) == Some((fs, Rest()))
    {
      hide GetField;
      fs := [];
      ghost var s := Rest();
      assert shapes[0..] == shapes && forall gs: seq<Field> :: [] + gs == gs;
      for i := 0 to |shapes|
        invariant Valid() && (ok ==> old(ok)) && |fs| == i
        invariant old(ok) && !ok ==> Get(shapes, s).None?
        invariant ok ==> match Get(shapes[i..], Rest())
                         case None => Get(shapes, s).None?
                         case Some((gs, last)) => Get(shapes, s) == Some((fs + gs, last))
      {
        assert shapes[i..][1..] == shapes[i + 1..] && shapes[i..][0] == shapes[i];
        var f := Take(shapes[i]);
        ghost var before := fs;
        fs := fs + [f];
        assert forall gs: seq<Field> :: before + ([f] + gs) == fs + gs;
      }
      assert shapes[|shapes|..] == [];
      assert fs + [] == fs;
    }
  }
}
