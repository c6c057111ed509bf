/** ssz/basic_types.py: the UInt and Bool suites of the basic types.

    These suites are not seeded. They draw from a generator of their own,
    made once as `Random(0)` when the file is loaded, so what a suite draws
    depends on how many draws earlier calls took. That generator's state is
    the stream `s` passed in and handed back; when the file is loaded it is
    the stream the twister produces from seed 0. */
module BasicTypes {
  import opened Wrappers
  import opened Schema
  import opened Draws
  import opened Renderers

  /** UINT_SIZES is `8 * 2**e` for e in `range(0, 6)`. */
  const UINT_EXPONENTS: nat := 6
  const NUM_RANDOM_UINT_VALUES: nat := 16
  /** The four edge values come before the random ones. */
  const NUM_EDGE_VALUES: nat := 4

  const UINT_TAGS: seq<string> := ["basic", "uint"]
  const BOOL_TAGS: seq<string> := ["basic", "bool"]

  const UINT_TITLE: string := "UInt"
  const UINT_SUMMARY: string := "UInt tests for all sizes"
  const BOOL_TITLE: string := "Bool"
  const BOOL_SUMMARY: string := "Tests for the two bool values"
  /** The version both suites pass to render_test. */
  const BASIC_VERSION: string := "0.1"

  /** The bit sizes for the last k exponents: `8 * 2**(6 - k)` up to 256. */
  function UIntSizes(k: nat): seq<nat>
    requires k <= UINT_EXPONENTS
    decreases k
  {
    if k == 0 then [] else [8 * Pow(2, UINT_EXPONENTS - k)] + UIntSizes(k - 1)
  }

  const UINT_SIZES: seq<nat> := UIntSizes(UINT_EXPONENTS)

  /** Element j of the last k sizes is the width of exponent `6 - k + j`. */
  lemma {:induction false} UIntSizesShape(k: nat)
    requires k <= UINT_EXPONENTS
    ensures |UIntSizes(k)| == k
    ensures forall j :: 0 <= j < k ==> UIntSizes(k)[j] == 8 * Pow(2, UINT_EXPONENTS - k + j)
    decreases k
  {
    if k > 0 {
      UIntSizesShape(k - 1);
      var sizes := UIntSizes(k);
      forall j | 0 < j < k ensures sizes[j] == 8 * Pow(2, UINT_EXPONENTS - k + j) {
        assert sizes[j] == UIntSizes(k - 1)[j - 1];
      }
    }
  }

  /** UINT_SIZES is 8, 16, 32, 64, 128, 256. */
  lemma UIntSizesValues()
    ensures UINT_SIZES == [8, 16, 32, 64, 128, 256]
  {
    UIntSizesShape(UINT_EXPONENTS);
    assert Pow(2, 5) == 32;
  }

  // ---------------------------------------------------------------------
  // UInt values

  /** A UInt at least one byte wide reaches at least 255. */
  lemma {:induction false} MaxUIntAtLeastByte(size: nat)
    requires size >= 1
    ensures MaxUInt(size) >= 255
  {
    PowAdd(2, 8 * (size - 1), 8);
    TwoPowEight();
    PowPositive(8 * (size - 1));
    assert 8 * (size - 1) + 8 == 8 * size;
  }

  /** The edge values of a width: 0, 1, `max_int - 1` and `max_int`. */
  function EdgeValues(size: nat): seq<int> {
    [0, 1, MaxUInt(size) - 1, MaxUInt(size)]
  }

  /** For every width the four edge values are in range and pairwise
      distinct, because the largest value is at least 255. */
  lemma EdgeValuesDistinct(size: nat)
    requires size >= 1
    ensures |EdgeValues(size)| == NUM_EDGE_VALUES
    ensures forall i :: 0 <= i < NUM_EDGE_VALUES ==> 0 <= EdgeValues(size)[i] <= MaxUInt(size)
    ensures forall i, j :: 0 <= i < j < NUM_EDGE_VALUES ==> EdgeValues(size)[i] != EdgeValues(size)[j]
  {
    MaxUIntAtLeastByte(size);
  }

  /** `count` draws of `random.randint(0, max_int)`. */
  function RandomValues(size: nat, count: nat, s: Stream): (r: (seq<int>, Stream))
    ensures |r.0| == count
    ensures forall k :: 0 <= k < count ==> 0 <= r.0[k] <= MaxUInt(size)
    ensures IsSuffix(r.1, s)
    decreases count
  {
    if count == 0 then ([], s)
    else
      PowPositive(8 * size);
      var (v, t) := RandInt(0, MaxUInt(size), s);
      var (vs, rest) := RandomValues(size, count - 1, t);
      SuffixTransitive(rest, t, s);
      assert forall k :: 1 <= k < count ==> ([v] + vs)[k] == vs[k - 1];
      ([v] + vs, rest)
  }

  /** The values of one width: the four edge values in order, then 16
      drawn over the whole range. */
  function UIntValues(size: nat, s: Stream): (r: (seq<int>, Stream))
    requires size >= 1
    ensures |r.0| == NUM_EDGE_VALUES + NUM_RANDOM_UINT_VALUES
    ensures r.0[0] == 0 && r.0[1] == 1 && r.0[2] == MaxUInt(size) - 1 && r.0[3] == MaxUInt(size)
    ensures forall k :: 0 <= k < |r.0| ==> 0 <= r.0[k] <= MaxUInt(size)
    ensures IsSuffix(r.1, s)
  {
    EdgeValuesDistinct(size);
    var (drawn, rest) := RandomValues(size, NUM_RANDOM_UINT_VALUES, s);
    ConcatInRange(EdgeValues(size), drawn, MaxUInt(size));
    (EdgeValues(size) + drawn, rest)
  }

  /** Two lists of values in [0, max], one after the other, stay in range. */
  lemma ConcatInRange(xs: seq<int>, ys: seq<int>, max: int)
    requires forall k :: 0 <= k < |xs| ==> 0 <= xs[k] <= max
    requires forall k :: 0 <= k < |ys| ==> 0 <= ys[k] <= max
    ensures forall k :: 0 <= k < |xs + ys| ==> 0 <= (xs + ys)[k] <= max
  {
  }

  /** Every value of the range can be the first drawn one. */
  lemma UIntValuesCover(size: nat, v: int)
    requires size >= 1 && 0 <= v <= MaxUInt(size)
    ensures UIntValues(size, [v]).0[NUM_EDGE_VALUES] == v
  {
    RandIntReachesEveryValue(0, MaxUInt(size), v);
    var drawn := RandomValues(size, NUM_RANDOM_UINT_VALUES, [v]).0;
    assert drawn[0] == v;
    assert UIntValues(size, [v]).0 == EdgeValues(size) + drawn;
  }

  // ---------------------------------------------------------------------
  // UInt cases

  /** A case of the basic UInt suite for value `v` of a UInt `size` bytes wide. */
  predicate UIntCaseOf(c: CaseArgs, enc: (Value, Sedes) -> Bytes, size: nat, v: int) {
    ValidCase(c, enc, UINT_TAGS) && c.sedes == UInt(size) && c.value == Some(VInt(v))
  }

  /** One valid case per value, in order, each with its encoding. */
  function UIntCases(enc: (Value, Sedes) -> Bytes, size: nat, values: seq<int>): (r: seq<CaseArgs>)
    requires forall k :: 0 <= k < |values| ==> 0 <= values[k] <= MaxUInt(size)
    ensures |r| == |values|
    ensures forall k :: 0 <= k < |r| ==> UIntCaseOf(r[k], enc, size, values[k])
  {
    seq(|values|, k requires 0 <= k < |values| =>
      CaseArgs(UInt(size), true, Some(VInt(values[k])), Some(enc(VInt(values[k]), UInt(size))), None, Some(UINT_TAGS)))
  }

  /** The 20 cases of one width: the edge values first, all valid. */
  predicate UIntBlockOf(b: seq<CaseArgs>, enc: (Value, Sedes) -> Bytes, size: nat) {
    && |b| == NUM_EDGE_VALUES + NUM_RANDOM_UINT_VALUES
    && (forall m :: 0 <= m < |b| ==> ValidCase(b[m], enc, UINT_TAGS) && b[m].sedes == UInt(size))
    && b[0].value == Some(VInt(0)) && b[1].value == Some(VInt(1))
    && b[2].value == Some(VInt(MaxUInt(size) - 1)) && b[3].value == Some(VInt(MaxUInt(size)))
  }

  /** The cases of one width, drawn from `s`. */
  function UIntBlock(enc: (Value, Sedes) -> Bytes, size: nat, s: Stream): (r: (seq<CaseArgs>, Stream))
    requires size >= 1
    ensures UIntBlockOf(r.0, enc, size)
    ensures IsSuffix(r.1, s)
  {
    var (values, rest) := UIntValues(size, s);
    var b := UIntCases(enc, size, values);
    assert forall m :: 0 <= m < |b| ==> UIntCaseOf(b[m], enc, size, values[m]);
    (b, rest)
  }

  /** generate_uint_test_cases over the last k exponents: block j holds the
      cases of a UInt `2**(6 - k + j)` bytes wide. */
  function UIntBlocks(enc: (Value, Sedes) -> Bytes, k: nat, s: Stream): (r: (seq<seq<CaseArgs>>, Stream))
    requires k <= UINT_EXPONENTS
    ensures |r.0| == k
    ensures forall j :: 0 <= j < k ==> UIntBlockOf(r.0[j], enc, Pow(2, UINT_EXPONENTS - k + j))
    ensures IsSuffix(r.1, s)
    decreases k
  {
    if k == 0 then ([], s)
    else
      PowPositive(UINT_EXPONENTS - k);
      var (b, t) := UIntBlock(enc, Pow(2, UINT_EXPONENTS - k), s);
      var (bs, rest) := UIntBlocks(enc, k - 1, t);
      SuffixTransitive(rest, t, s);
      UIntBlocksCons(enc, k, b, bs);
      ([b] + bs, rest)
  }

  lemma UIntBlocksCons(enc: (Value, Sedes) -> Bytes, k: nat, b: seq<CaseArgs>, bs: seq<seq<CaseArgs>>)
    requires 0 < k <= UINT_EXPONENTS && |bs| == k - 1
    requires UIntBlockOf(b, enc, Pow(2, UINT_EXPONENTS - k))
    requires forall j :: 0 <= j < |bs| ==> UIntBlockOf(bs[j], enc, Pow(2, UINT_EXPONENTS - k + 1 + j))
    ensures forall j :: 0 <= j < k ==> UIntBlockOf(([b] + bs)[j], enc, Pow(2, UINT_EXPONENTS - k + j))
  {
    var all := [b] + bs;
    forall j | 0 <= j < k ensures UIntBlockOf(all[j], enc, Pow(2, UINT_EXPONENTS - k + j)) {
      if j > 0 {
        assert all[j] == bs[j - 1];
      }
    }
  }

  /** Block j of the UInt suite covers the j-th entry of UINT_SIZES: its
      UInt is that many bits wide. */
  lemma UIntBlocksFollowSizes(enc: (Value, Sedes) -> Bytes, s: Stream, j: nat)
    requires j < UINT_EXPONENTS
    ensures UIntBlockOf(UIntBlocks(enc, UINT_EXPONENTS, s).0[j], enc, Pow(2, j))
    ensures 8 * Pow(2, j) == UINT_SIZES[j]
  {
    UIntSizesShape(UINT_EXPONENTS);
  }

  /** The UInt suite's cases over the last k exponents: 20 valid cases per
      width. */
  function UIntSuiteCases(enc: (Value, Sedes) -> Bytes, k: nat, s: Stream): (r: (seq<CaseArgs>, Stream))
    requires k <= UINT_EXPONENTS
    ensures |r.0| == 20 * k
    ensures forall i :: 0 <= i < |r.0| ==> ValidCase(r.0[i], enc, UINT_TAGS) && Admissible(r.0[i])
    ensures IsSuffix(r.1, s)
  {
    var (blocks, rest) := UIntBlocks(enc, k, s);
    forall j | 0 <= j < |blocks| ensures |blocks[j]| == 20 {
      assert UIntBlockOf(blocks[j], enc, Pow(2, UINT_EXPONENTS - k + j));
    }
    forall j, m | 0 <= j < |blocks| && 0 <= m < |blocks[j]| ensures ValidCase(blocks[j][m], enc, UINT_TAGS) {
      assert UIntBlockOf(blocks[j], enc, Pow(2, UINT_EXPONENTS - k + j));
    }
    FlattenLength(blocks, 20);
    FlattenValid(blocks, enc, UINT_TAGS);
    ValidCasesAdmissible(Flatten(blocks), enc, UINT_TAGS);
    (Flatten(blocks), rest)
  }

  /** generate_uint_test: 20 valid cases for each of the six widths,
      rendered under `version`; the file's own generator is left where the
      draws ended. */
  function UIntTest(enc: (Value, Sedes) -> Bytes, s: Stream): (r: (Result<Doc>, Stream))
    ensures r.0.Success? && CaseCount(r.0.value) == Some(120)
    ensures IsSuffix(r.1, s)
  {
    var cases := UIntSuiteCases(enc, UINT_EXPONENTS, s);
    SuiteRun(UINT_TITLE, UINT_SUMMARY, "version", BASIC_VERSION, cases.0, cases.1)
  }

  // ---------------------------------------------------------------------
  // Bool

  /** generate_bool_test_cases: True then False, both valid with their
      encoding. */
  function BoolCases(enc: (Value, Sedes) -> Bytes): (r: seq<CaseArgs>)
    ensures |r| == 2
    ensures forall k :: 0 <= k < 2 ==> ValidCase(r[k], enc, BOOL_TAGS) && r[k].sedes == Boolean
    ensures r[0].value == Some(VBool(true)) && r[1].value == Some(VBool(false))
  {
    seq(2, k requires 0 <= k < 2 =>
      CaseArgs(Boolean, true, Some(VBool(k == 0)), Some(enc(VBool(k == 0), Boolean)), None, Some(BOOL_TAGS)))
  }

  /** generate_bool_test: the two valid cases rendered under `version`. */
  function BoolTest(enc: (Value, Sedes) -> Bytes): (r: Result<Doc>)
    ensures r.Success? && CaseCount(r.value) == Some(2)
  {
    var cases := BoolCases(enc);
    ValidCasesAdmissible(cases, enc, BOOL_TAGS);
    SuiteRun(BOOL_TITLE, BOOL_SUMMARY, "version", BASIC_VERSION, cases, ()).0
  }
}
