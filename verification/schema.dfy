/** The closed set of ssz schemas ("sedes") the generators build, the values
    they generate, and the value domain a conformant codec accepts. */
module Schema {

  type byte = x: int | 0 <= x < 256
  type Bytes = seq<byte>

  /** A UInt carries its width in bytes: py-ssz's `.size` (read by the
      renderer) and `.length` (read by the uint generators) are both the bit
      width divided by eight. */
  datatype Sedes =
    | Boolean
    | UInt(size: nat)
    | List(element: Sedes)
    | Vector(element: Sedes, length: nat)
    | Container(fields: seq<Sedes>)
  {
    predicate IsBasic() {
      Boolean? || UInt?
    }
  }

  /** One entry of a mapping value. */
  datatype Field = Field(name: string, value: Value)

  /** A generated value. A Container value is either a positional tuple
      (`VSeq`) or a field-name keyed mapping (`VMap`, insertion ordered).
      Python strings are deliberately not a value kind. */
  datatype Value =
    | VBool(b: bool)
    | VInt(i: int)
    | VBytes(bytes: Bytes)
    | VSeq(items: seq<Value>)
    | VMap(fields: seq<Field>)

  /** The UInt widths, in bits, used by the basic, flat and nested generators. */
  const UINT_SIZES: seq<nat> := [8, 16, 32, 64, 128, 256]

  /** Boolean followed by one UInt per entry of UINT_SIZES, in that order. */
  const BASIC_SEDES: seq<Sedes> :=
    [Boolean, UInt(1), UInt(2), UInt(4), UInt(8), UInt(16), UInt(32)]

  function Pow(b: nat, e: nat): nat {
    if e == 0 then 1 else b * Pow(b, e - 1)
  }

  /** The largest value of a UInt that is `size` bytes wide. */
  function MaxUInt(size: nat): int {
    Pow(2, 8 * size) - 1
  }

  /** Bytes one element of a basic sedes occupies (py-ssz's `.size`). */
  function ByteSize(s: Sedes): nat
    requires s.IsBasic()
  {
    if s.Boolean? then 1 else s.size
  }

  /** The values a conformant codec accepts for a schema. */
  predicate Conforms(v: Value, s: Sedes)
    decreases v
  {
    match s
    case Boolean => v.VBool?
    case UInt(n) => v.VInt? && 0 <= v.i <= MaxUInt(n)
    case List(e) =>
      v.VSeq? && forall k :: 0 <= k < |v.items| ==> Conforms(v.items[k], e)
    case Vector(e, len) =>
      v.VSeq? && |v.items| == len
      && forall k :: 0 <= k < |v.items| ==> Conforms(v.items[k], e)
    case Container(fs) =>
      (v.VSeq? && |v.items| == |fs|
       && forall k :: 0 <= k < |fs| ==> Conforms(v.items[k], fs[k]))
      || (v.VMap? && |v.fields| == |fs|
          && (forall i, j :: 0 <= i < j < |fs| ==> v.fields[i].name != v.fields[j].name)
          && forall k :: 0 <= k < |fs| ==> Conforms(v.fields[k].value, fs[k]))
  }

  /** Every UInt in the schema is at least one byte wide, as py-ssz demands. */
  predicate WellFormed(s: Sedes) {
    match s
    case Boolean => true
    case UInt(n) => n >= 1
    case List(e) => WellFormed(e)
    case Vector(e, _) => WellFormed(e)
    case Container(fs) => forall k :: 0 <= k < |fs| ==> WellFormed(fs[k])
  }

  /** Every leaf of the schema tree is basic. */
  predicate AllLeavesBasic(s: Sedes) {
    match s
    case Boolean => true
    case UInt(n) => n in {1, 2, 4, 8, 16, 32}
    case List(e) => AllLeavesBasic(e)
    case Vector(e, _) => AllLeavesBasic(e)
    case Container(fs) => forall k :: 0 <= k < |fs| ==> AllLeavesBasic(fs[k])
  }

  /** No Vector is longer, and no Container has more fields, than `w`. */
  predicate WidthAtMost(s: Sedes, w: nat) {
    match s
    case Boolean => true
    case UInt(_) => true
    case List(e) => WidthAtMost(e, w)
    case Vector(e, len) => len <= w && WidthAtMost(e, w)
    case Container(fs) =>
      |fs| <= w && forall k :: 0 <= k < |fs| ==> WidthAtMost(fs[k], w)
  }

  /** Number of composite layers on the longest branch; a basic sedes has depth 0. */
  function Depth(s: Sedes): nat {
    match s
    case Boolean => 0
    case UInt(_) => 0
    case List(e) => 1 + Depth(e)
    case Vector(e, _) => 1 + Depth(e)
    case Container(fs) => 1 + MaxDepth(fs)
  }

  function MaxDepth(fs: seq<Sedes>): nat {
    if |fs| == 0 then 0
    else
      var d := MaxDepth(fs[1..]);
      if Depth(fs[0]) > d then Depth(fs[0]) else d
  }

  /** MaxDepth bounds every field's depth, and is bounded by any common bound. */
  lemma {:induction false} MaxDepthBound(fs: seq<Sedes>, bound: nat)
    ensures forall k :: 0 <= k < |fs| ==> Depth(fs[k]) <= MaxDepth(fs)
    ensures (forall k :: 0 <= k < |fs| ==> Depth(fs[k]) <= bound) ==> MaxDepth(fs) <= bound
  {
    if |fs| > 0 {
      MaxDepthBound(fs[1..], bound);
      assert forall k :: 1 <= k < |fs| ==> fs[k] == fs[1..][k - 1];
    }
  }

  /** Eight to the n never exceeds the largest n-byte unsigned integer, so the
      generators' `randint(0, 8**size)` always yields an in-range value. */
  lemma {:induction false} EightPowFitsUInt(n: nat)
    requires n >= 1
    ensures Pow(8, n) <= MaxUInt(n)
  {
    TwoPowEight();
    if n > 1 {
      EightPowFitsUInt(n - 1);
      PowAdd(2, 8 * (n - 1), 8);
      var p, q := Pow(2, 8 * (n - 1)), Pow(8, n - 1);
      assert Pow(2, 8 * n) == p * 256 by { assert 8 * (n - 1) + 8 == 8 * n; }
      assert Pow(8, n) == 8 * q;
      assert q <= p - 1;
    }
  }

  lemma {:induction false} PowPositive(e: nat)
    ensures Pow(2, e) >= 1
  {
    if e > 0 {
      PowPositive(e - 1);
    }
  }

  lemma TwoPowEight()
    ensures Pow(2, 8) == 256
  {
    assert Pow(2, 4) == 16;
  }

  lemma {:induction false} PowAdd(b: nat, x: nat, y: nat)
    ensures Pow(b, x + y) == Pow(b, x) * Pow(b, y)
  {
    if y > 0 {
      PowAdd(b, x, y - 1);
      var p, q := Pow(b, x), Pow(b, y - 1);
      assert Pow(b, x + y) == b * Pow(b, x + (y - 1));
      assert Pow(b, y) == b * q;
      MulSwap(b, p, q);
    }
  }

  lemma MulSwap(a: int, b: int, c: int)
    ensures a * (b * c) == b * (a * c)
  {
  }
}
