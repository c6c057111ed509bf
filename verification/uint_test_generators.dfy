/** ssz/uint_test_generators.py: the three seeded UInt suites, covering
    every width from 8 to 512 bits: values right at and just beyond the
    bounds, values drawn uniformly from the range, and serials of the wrong
    length.

    The loops over BIT_SIZES are written as recursions over how many widths
    are still to go: with k widths left the next UInt is `WIDTHS - k + 1`
    bytes wide, so block j of the last k widths is `WIDTHS - k + j + 1`
    bytes wide; BitSizesShape states that this is the order of BIT_SIZES.
    The per-width loops likewise count the cases still to draw. */
module UIntGenerators {
  import opened Wrappers
  import opened Schema
  import opened Draws
  import opened Renderers
  import opened RandomScope

  /** The widths, in bits, of the UInts covered: 8, 16, ..., 512. */
  const BIT_SIZES: seq<nat> := BitSizes(WIDTHS)
  /** The number of widths. */
  const WIDTHS: nat := 64
  const RANDOM_TEST_CASES_PER_BIT_SIZE: nat := 10
  const RANDOM_TEST_CASES_PER_LENGTH: nat := 3

  /** The tag every suite of this file passes to render_test. */
  const FORK: string := "phase0-0.2.0"

  const COMMON_TAGS: seq<string> := ["atomic", "uint"]
  const RANDOM_TAGS: seq<string> := ["atomic", "uint", "random"]
  const WRONG_LENGTH_TAGS: seq<string> := ["atomic", "uint", "wrong_length"]

  const BOUNDS_TITLE: string := "UInt Bounds"
  const BOUNDS_SUMMARY: string := "Integers right at or beyond the bounds of the allowed value range"
  const RANDOM_TITLE: string := "UInt Random"
  const RANDOM_SUMMARY: string := "Random integers chosen uniformly over the allowed value range"
  const WRONG_LENGTH_TITLE: string := "UInt Wrong Length"
  const WRONG_LENGTH_SUMMARY: string := "Serialized integers that are too short or too long"

  /** The bit widths of the last k UInts: 8 * (WIDTHS - k + 1) up to 512,
      ascending. */
  function BitSizes(k: nat): seq<nat>
    requires k <= WIDTHS
    decreases k
  {
    if k == 0 then [] else [8 * (WIDTHS - k + 1)] + BitSizes(k - 1)
  }

  lemma {:induction false} BitSizesLength(k: nat)
    requires k <= WIDTHS
    ensures |BitSizes(k)| == k
    ensures forall i :: 0 <= i < k ==> BitSizes(k)[i] == 8 * (WIDTHS - k + i + 1)
    ensures forall i :: 0 <= i < k ==> BitSizes(k)[i] / 8 == WIDTHS - k + i + 1
    decreases k
  {
    if k > 0 {
      BitSizesLength(k - 1);
    }
  }

  /** BIT_SIZES is every multiple of eight from 8 to 512, ascending, and
      entry j is `j + 1` bytes wide. */
  lemma BitSizesShape()
    ensures |BIT_SIZES| == WIDTHS
    ensures forall j :: 0 <= j < WIDTHS ==> BIT_SIZES[j] == 8 * (j + 1) && BIT_SIZES[j] / 8 == j + 1
    ensures BIT_SIZES[0] == 8 && BIT_SIZES[WIDTHS - 1] == 512
    ensures forall i, j :: 0 <= i < j < |BIT_SIZES| ==> BIT_SIZES[i] < BIT_SIZES[j]
  {
    BitSizesLength(WIDTHS);
  }

  /** `UInt(bit_size)` admits exactly the integers 0 .. 2^bit_size - 1: the
      two values at the bounds conform, the two one step beyond do not. */
  lemma BoundsAreTight(size: nat)
    ensures Conforms(VInt(0), UInt(size))
    ensures Conforms(VInt(Pow(2, 8 * size) - 1), UInt(size))
    ensures !Conforms(VInt(-1), UInt(size))
    ensures !Conforms(VInt(Pow(2, 8 * size)), UInt(size))
    ensures forall v :: Conforms(VInt(v), UInt(size)) <==> 0 <= v < Pow(2, 8 * size)
  {
    PowPositive(8 * size);
  }

  // ---------------------------------------------------------------------
  // Bounds and out-of-bounds cases

  /** The two valid cases of a width: its smallest and its largest value,
      each with its encoding. */
  predicate InBoundsBlockOf(b: seq<CaseArgs>, enc: (Value, Sedes) -> Bytes, size: nat) {
    && |b| == 2
    && ValidCase(b[0], enc, COMMON_TAGS + ["uint_lower_bound"]) && b[0].sedes == UInt(size)
    && ValidCase(b[1], enc, COMMON_TAGS + ["uint_upper_bound"]) && b[1].sedes == UInt(size)
    && b[0].value == Some(VInt(0)) && b[1].value == Some(VInt(MaxUInt(size)))
  }

  /** The two invalid cases of a width: one below the smallest and one above
      the largest value, neither with a serial or description nor conforming
      to the UInt, tagged as an underflow and an overflow. */
  predicate OutOfBoundsBlockOf(b: seq<CaseArgs>, size: nat) {
    && |b| == 2
    && (forall m :: 0 <= m < 2 ==>
          && !b[m].valid && b[m].serial.None? && b[m].value.Some? && b[m].sedes == UInt(size)
          && b[m].description.None?
          && !Conforms(b[m].value.value, b[m].sedes))
    && b[0].value == Some(VInt(-1)) && b[1].value == Some(VInt(MaxUInt(size) + 1))
    && b[0].tags == Some(COMMON_TAGS + ["uint_underflow"])
    && b[1].tags == Some(COMMON_TAGS + ["uint_overflow"])
  }

  function BoundCases(enc: (Value, Sedes) -> Bytes, size: nat): (r: seq<CaseArgs>)
    ensures InBoundsBlockOf(r, enc, size)
  {
    PowPositive(8 * size);
    var sedes := UInt(size);
    [ CaseArgs(sedes, true, Some(VInt(0)), Some(enc(VInt(0), sedes)), None,
               Some(COMMON_TAGS + ["uint_lower_bound"])),
      CaseArgs(sedes, true, Some(VInt(MaxUInt(size))), Some(enc(VInt(MaxUInt(size)), sedes)), None,
               Some(COMMON_TAGS + ["uint_upper_bound"])) ]
  }

  function OutOfBoundsCases(size: nat): (r: seq<CaseArgs>)
    ensures OutOfBoundsBlockOf(r, size)
  {
    PowPositive(8 * size);
    var sedes := UInt(size);
    [ CaseArgs(sedes, false, Some(VInt(-1)), None, None, Some(COMMON_TAGS + ["uint_underflow"])),
      CaseArgs(sedes, false, Some(VInt(MaxUInt(size) + 1)), None, None, Some(COMMON_TAGS + ["uint_overflow"])) ]
  }

  /** generate_uint_bounds_test_cases over the last k widths: two cases
      per width, in width order. */
  function BoundsBlocks(enc: (Value, Sedes) -> Bytes, k: nat): (r: seq<seq<CaseArgs>>)
    requires k <= WIDTHS
    ensures |r| == k
    ensures forall j :: 0 <= j < k ==> InBoundsBlockOf(r[j], enc, WIDTHS - k + j + 1)
    decreases k
  {
    if k == 0 then []
    else
      var b := BoundCases(enc, WIDTHS - k + 1);
      var bs := BoundsBlocks(enc, k - 1);
      InBoundsCons(enc, k, b, bs);
      [b] + bs
  }

  lemma InBoundsCons(enc: (Value, Sedes) -> Bytes, k: nat, b: seq<CaseArgs>, bs: seq<seq<CaseArgs>>)
    requires 0 < k <= WIDTHS && |bs| == k - 1
    requires InBoundsBlockOf(b, enc, WIDTHS - k + 1)
    requires forall j :: 0 <= j < |bs| ==> InBoundsBlockOf(bs[j], enc, WIDTHS - k + j + 2)
    ensures forall j :: 0 <= j < k ==> InBoundsBlockOf(([b] + bs)[j], enc, WIDTHS - k + j + 1)
  {
    assert forall j :: 1 <= j <= |bs| ==> ([b] + bs)[j] == bs[j - 1];
  }

  /** generate_uint_out_of_bounds_test_cases over the last k widths. */
  function OutOfBoundsBlocks(k: nat): (r: seq<seq<CaseArgs>>)
    requires k <= WIDTHS
    ensures |r| == k
    ensures forall j :: 0 <= j < k ==> OutOfBoundsBlockOf(r[j], WIDTHS - k + j + 1)
    decreases k
  {
    if k == 0 then []
    else
      var b := OutOfBoundsCases(WIDTHS - k + 1);
      var bs := OutOfBoundsBlocks(k - 1);
      OutOfBoundsCons(k, b, bs);
      [b] + bs
  }

  lemma OutOfBoundsCons(k: nat, b: seq<CaseArgs>, bs: seq<seq<CaseArgs>>)
    requires 0 < k <= WIDTHS && |bs| == k - 1
    requires OutOfBoundsBlockOf(b, WIDTHS - k + 1)
    requires forall j :: 0 <= j < |bs| ==> OutOfBoundsBlockOf(bs[j], WIDTHS - k + j + 2)
    ensures forall j :: 0 <= j < k ==> OutOfBoundsBlockOf(([b] + bs)[j], WIDTHS - k + j + 1)
  {
    assert forall j :: 1 <= j <= |bs| ==> ([b] + bs)[j] == bs[j - 1];
  }

  /** The in-bounds cases of the last k widths are valid, two per width. */
  lemma InBoundsAdmissible(enc: (Value, Sedes) -> Bytes, k: nat)
    requires k <= WIDTHS
    ensures |Flatten(BoundsBlocks(enc, k))| == 2 * k
    ensures forall i :: 0 <= i < |Flatten(BoundsBlocks(enc, k))| ==> Admissible(Flatten(BoundsBlocks(enc, k))[i])
    ensures forall i :: 0 <= i < |Flatten(BoundsBlocks(enc, k))| ==> Flatten(BoundsBlocks(enc, k))[i].valid
  {
    var inb := BoundsBlocks(enc, k);
    forall j, m | 0 <= j < |inb| && 0 <= m < |inb[j]| ensures Admissible(inb[j][m]) && inb[j][m].valid {
      assert InBoundsBlockOf(inb[j], enc, WIDTHS - k + j + 1);
    }
    FlattenLength(inb, 2);
    FlattenAdmissible(inb);
    FlattenAll(inb, (c: CaseArgs) => c.valid);
  }

  /** The out-of-bounds cases of the last k widths are invalid and have no
      serial, two per width. */
  lemma OutOfBoundsAdmissible(k: nat)
    requires k <= WIDTHS
    ensures |Flatten(OutOfBoundsBlocks(k))| == 2 * k
    ensures forall i :: 0 <= i < |Flatten(OutOfBoundsBlocks(k))| ==> Admissible(Flatten(OutOfBoundsBlocks(k))[i])
    ensures forall i :: 0 <= i < |Flatten(OutOfBoundsBlocks(k))| ==>
              !Flatten(OutOfBoundsBlocks(k))[i].valid && Flatten(OutOfBoundsBlocks(k))[i].serial.None?
  {
    var outb := OutOfBoundsBlocks(k);
    forall j, m | 0 <= j < |outb| && 0 <= m < |outb[j]|
      ensures Admissible(outb[j][m]) && !outb[j][m].valid && outb[j][m].serial.None?
    {
      assert OutOfBoundsBlockOf(outb[j], WIDTHS - k + j + 1);
    }
    FlattenLength(outb, 2);
    FlattenAdmissible(outb);
    FlattenAll(outb, (c: CaseArgs) => !c.valid && c.serial.None?);
  }

  /** The bounds suite's cases: all in-bounds cases, then all
      out-of-bounds ones, four per width, each keeping the invariant. */
  function BoundsSuiteCases(enc: (Value, Sedes) -> Bytes, k: nat): (r: seq<CaseArgs>)
    requires k <= WIDTHS
    ensures |r| == 4 * k
    ensures forall i :: 0 <= i < |r| ==> Admissible(r[i])
    ensures forall i :: 0 <= i < 2 * k ==> r[i].valid
    ensures forall i :: 2 * k <= i < 4 * k ==> !r[i].valid && r[i].serial.None?
  {
    InBoundsAdmissible(enc, k);
    OutOfBoundsAdmissible(k);
    AdmissibleConcat(Flatten(BoundsBlocks(enc, k)), Flatten(OutOfBoundsBlocks(k)));
    BoundsSplit(Flatten(BoundsBlocks(enc, k)), Flatten(OutOfBoundsBlocks(k)), k);
    Flatten(BoundsBlocks(enc, k)) + Flatten(OutOfBoundsBlocks(k))
  }

  /** Valid cases followed by invalid, unserialised ones keep that split. */
  lemma BoundsSplit(inb: seq<CaseArgs>, outb: seq<CaseArgs>, k: nat)
    requires |inb| == 2 * k && |outb| == 2 * k
    requires forall i :: 0 <= i < |inb| ==> inb[i].valid
    requires forall i :: 0 <= i < |outb| ==> !outb[i].valid && outb[i].serial.None?
    ensures forall i :: 0 <= i < 2 * k ==> (inb + outb)[i].valid
    ensures forall i :: 2 * k <= i < 4 * k ==> !(inb + outb)[i].valid && (inb + outb)[i].serial.None?
  {
    assert forall i :: 2 * k <= i < 4 * k ==> (inb + outb)[i] == outb[i - 2 * k];
  }

  // ---------------------------------------------------------------------
  // Random cases

  /** A case of the random suite for a UInt `size` bytes wide. */
  predicate RandomCaseOf(c: CaseArgs, enc: (Value, Sedes) -> Bytes, size: nat) {
    ValidCase(c, enc, RANDOM_TAGS) && c.sedes == UInt(size)
  }

  /** One case of generate_random_uint_test_cases: `randrange(0, 2**bits)`
      and its encoding. */
  function RandomUIntCase(enc: (Value, Sedes) -> Bytes, size: nat, s: Stream): (r: (CaseArgs, Stream))
    ensures RandomCaseOf(r.0, enc, size)
    ensures IsSuffix(r.1, s)
  {
    PowPositive(8 * size);
    var sedes := UInt(size);
    var (v, rest) := RandInt(0, MaxUInt(size), s);
    (CaseArgs(sedes, true, Some(VInt(v)), Some(enc(VInt(v), sedes)), None, Some(RANDOM_TAGS)), rest)
  }

  /** Every value of the range can be drawn. */
  lemma RandomUIntCaseCovers(enc: (Value, Sedes) -> Bytes, size: nat, v: nat)
    requires v <= MaxUInt(size)
    ensures RandomUIntCase(enc, size, [v]).0.value == Some(VInt(v))
  {
    RandIntReachesEveryValue(0, MaxUInt(size), v);
  }

  /** `count` random cases of one width. */
  function RandomUIntCases(enc: (Value, Sedes) -> Bytes, size: nat, count: nat, s: Stream): (r: (seq<CaseArgs>, Stream))
    ensures |r.0| == count
    ensures forall i :: 0 <= i < |r.0| ==> RandomCaseOf(r.0[i], enc, size)
    ensures IsSuffix(r.1, s)
    decreases count
  {
    if count == 0 then ([], s)
    else
      var c := RandomUIntCase(enc, size, s);
      var cs := RandomUIntCases(enc, size, count - 1, c.1);
      SuffixTransitive(cs.1, c.1, s);
      RandomCasesCons(enc, size, c.0, cs.0);
      ([c.0] + cs.0, cs.1)
  }

  lemma RandomCasesCons(enc: (Value, Sedes) -> Bytes, size: nat, c: CaseArgs, cs: seq<CaseArgs>)
    requires RandomCaseOf(c, enc, size)
    requires forall i :: 0 <= i < |cs| ==> RandomCaseOf(cs[i], enc, size)
    ensures forall i :: 0 <= i < |cs| + 1 ==> RandomCaseOf(([c] + cs)[i], enc, size)
  {
    assert forall i :: 1 <= i <= |cs| ==> ([c] + cs)[i] == cs[i - 1];
  }

  /** The ten random cases of one width. */
  predicate RandomBlockOf(b: seq<CaseArgs>, enc: (Value, Sedes) -> Bytes, size: nat) {
    |b| == RANDOM_TEST_CASES_PER_BIT_SIZE && forall m :: 0 <= m < |b| ==> RandomCaseOf(b[m], enc, size)
  }

  /** generate_random_uint_test_cases over the last k widths: ten cases
      per width, in width order. */
  function RandomUIntBlocks(enc: (Value, Sedes) -> Bytes, k: nat, s: Stream): (r: (seq<seq<CaseArgs>>, Stream))
    requires k <= WIDTHS
    ensures |r.0| == k
    ensures forall j :: 0 <= j < k ==> RandomBlockOf(r.0[j], enc, WIDTHS - k + j + 1)
    ensures IsSuffix(r.1, s)
    decreases k
  {
    if k == 0 then ([], s)
    else
      var b := RandomUIntCases(enc, WIDTHS - k + 1, RANDOM_TEST_CASES_PER_BIT_SIZE, s);
      var bs := RandomUIntBlocks(enc, k - 1, b.1);
      SuffixTransitive(bs.1, b.1, s);
      RandomBlocksCons(enc, k, b.0, bs.0);
      ([b.0] + bs.0, bs.1)
  }

  lemma RandomBlocksCons(enc: (Value, Sedes) -> Bytes, k: nat, b: seq<CaseArgs>, bs: seq<seq<CaseArgs>>)
    requires 0 < k <= WIDTHS && |bs| == k - 1
    requires RandomBlockOf(b, enc, WIDTHS - k + 1)
    requires forall j :: 0 <= j < |bs| ==> RandomBlockOf(bs[j], enc, WIDTHS - k + j + 2)
    ensures forall j :: 0 <= j < k ==> RandomBlockOf(([b] + bs)[j], enc, WIDTHS - k + j + 1)
  {
    assert forall j :: 1 <= j <= |bs| ==> ([b] + bs)[j] == bs[j - 1];
  }

  /** The random cases of the last k widths are valid cases, ten per
      width. */
  lemma RandomCasesValid(enc: (Value, Sedes) -> Bytes, k: nat, s: Stream)
    requires k <= WIDTHS
    ensures |Flatten(RandomUIntBlocks(enc, k, s).0)| == 10 * k
    ensures forall i :: 0 <= i < |Flatten(RandomUIntBlocks(enc, k, s).0)| ==>
              ValidCase(Flatten(RandomUIntBlocks(enc, k, s).0)[i], enc, RANDOM_TAGS)
  {
    var blocks := RandomUIntBlocks(enc, k, s).0;
    forall j | 0 <= j < |blocks| ensures |blocks[j]| == 10 {
      assert RandomBlockOf(blocks[j], enc, WIDTHS - k + j + 1);
    }
    FlattenLength(blocks, 10);
    forall j, m | 0 <= j < |blocks| && 0 <= m < |blocks[j]|
      ensures ValidCase(blocks[j][m], enc, RANDOM_TAGS)
    {
      assert RandomBlockOf(blocks[j], enc, WIDTHS - k + j + 1);
      assert RandomCaseOf(blocks[j][m], enc, WIDTHS - k + j + 1);
    }
    FlattenValid(blocks, enc, RANDOM_TAGS);
  }

  /** The random suite's cases over the last k widths, and the state the
      draws leave behind: ten per width, each keeping the invariant. */
  function RandomSuiteCases(enc: (Value, Sedes) -> Bytes, k: nat, s: Stream): (r: (seq<CaseArgs>, Stream))
    requires k <= WIDTHS
    ensures |r.0| == 10 * k
    ensures forall i :: 0 <= i < |r.0| ==> Admissible(r.0[i])
    ensures IsSuffix(r.1, s)
  {
    var blocks := RandomUIntBlocks(enc, k, s);
    RandomCasesValid(enc, k, s);
    ValidCasesAdmissible(Flatten(blocks.0), enc, RANDOM_TAGS);
    (Flatten(blocks.0), blocks.1)
  }

  // ---------------------------------------------------------------------
  // Wrong-length cases

  predicate StrictlyIncreasing(xs: seq<nat>) {
    forall i, j :: 0 <= i < j < |xs| ==> xs[i] < xs[j]
  }

  /** Adds `x` to an ascending sequence without duplicates. */
  function Insert(x: nat, xs: seq<nat>): seq<nat> {
    if |xs| == 0 then [x]
    else if x < xs[0] then [x] + xs
    else if x == xs[0] then xs
    else [xs[0]] + Insert(x, xs[1..])
  }

  lemma {:induction false} InsertSorted(x: nat, xs: seq<nat>)
    requires StrictlyIncreasing(xs)
    ensures StrictlyIncreasing(Insert(x, xs))
    ensures forall y :: y in Insert(x, xs) <==> y == x || y in xs
  {
    if |xs| > 0 && x > xs[0] {
      InsertSorted(x, xs[1..]);
      var r := Insert(x, xs[1..]);
      assert forall y :: y in xs <==> y == xs[0] || y in xs[1..] by {
        assert xs == [xs[0]] + xs[1..];
      }
      forall i | 0 <= i < |r| ensures xs[0] < r[i] {
        assert r[i] in r;
      }
    }
  }

  /** `sorted(set(xs))`: the distinct elements of `xs`, ascending. */
  function SortedSet(xs: seq<nat>): (r: seq<nat>)
    ensures StrictlyIncreasing(r)
    ensures forall y :: y in r <==> y in xs
  {
    if |xs| == 0 then []
    else
      var rest := SortedSet(xs[1..]);
      InsertSorted(xs[0], rest);
      assert forall y :: y in xs <==> y == xs[0] || y in xs[1..] by {
        assert xs == [xs[0]] + xs[1..];
      }
      Insert(xs[0], rest)
  }

  /** An ascending sequence without duplicates is fixed by its elements. */
  lemma {:induction false} SortedUnique(a: seq<nat>, b: seq<nat>)
    requires StrictlyIncreasing(a) && StrictlyIncreasing(b)
    requires forall y :: y in a <==> y in b
    ensures a == b
  {
    assert |a| > 0 ==> a[0] in b;
    assert |b| > 0 ==> b[0] in a;
    if |a| > 0 {
      HeadIsLeast(a);
      HeadIsLeast(b);
      assert a[0] == b[0];
      TailElements(a);
      TailElements(b);
      SortedUnique(a[1..], b[1..]);
      assert a == [a[0]] + a[1..];
      assert b == [b[0]] + b[1..];
    }
  }

  /** The head of an ascending sequence is its least element. */
  lemma HeadIsLeast(a: seq<nat>)
    requires StrictlyIncreasing(a) && |a| > 0
    ensures forall y :: y in a ==> a[0] <= y
  {
  }

  /** The tail of an ascending sequence is everything but its head. */
  lemma TailElements(a: seq<nat>)
    requires StrictlyIncreasing(a) && |a| > 0
    ensures forall y :: y in a[1..] <==> y in a && y != a[0]
  {
    assert a == [a[0]] + a[1..];
    forall y | y in a[1..] ensures y != a[0] {
      var i :| 0 <= i < |a[1..]| && a[1..][i] == y;
      assert a[0] < a[i + 1];
    }
  }

  /** The candidate serial lengths for a UInt `length` bytes wide, in the
      order the generator lists them: none, half, one short, one over and
      double. */
  function Candidates(length: nat): seq<nat>
    requires length >= 1
  {
    [0, length / 2, length - 1, length + 1, length * 2]
  }

  /** The serial lengths tried for a UInt `length` bytes wide, written out
      per width; WrongLengthsSorted shows this is `sorted(set(...))` of the
      candidates. The candidates coincide for one- and two-byte widths. */
  function WrongLengths(length: nat): (r: seq<nat>)
    requires length >= 1
    ensures length !in r
    ensures forall k :: 0 <= k < |r| ==> r[k] in Candidates(length)
  {
    if length == 1 then [0, 2]
    else if length == 2 then [0, 1, 3, 4]
    else Candidates(length)
  }

  /** The tried lengths are exactly the distinct candidates, ascending. */
  lemma WrongLengthsSorted(length: nat)
    requires length >= 1
    ensures WrongLengths(length) == SortedSet(Candidates(length))
    ensures StrictlyIncreasing(WrongLengths(length))
    ensures forall y :: y in WrongLengths(length) <==> y in Candidates(length)
  {
    var r := WrongLengths(length);
    var c := Candidates(length);
    if length == 1 {
      CandidatesOneByte();
    } else if length == 2 {
      CandidatesTwoBytes();
    } else {
      assert r == c;
    }
    WrongLengthsIncreasing(length);
    SortedUnique(SortedSet(c), r);
  }

  lemma WrongLengthsIncreasing(length: nat)
    requires length >= 1
    ensures StrictlyIncreasing(WrongLengths(length))
  {
    var r := WrongLengths(length);
    if length >= 3 {
      var h := length / 2;
      assert 0 < h < length - 1;
      assert r == [0, h, length - 1, length + 1, length * 2];
      IncreasingByNeighbours(r);
    }
  }

  /** A sequence whose neighbours increase increases throughout. */
  lemma {:induction false} IncreasingByNeighbours(xs: seq<nat>)
    requires forall i :: 0 <= i < |xs| - 1 ==> xs[i] < xs[i + 1]
    ensures StrictlyIncreasing(xs)
  {
    if |xs| > 1 {
      IncreasingByNeighbours(xs[1..]);
      assert forall j :: 1 <= j < |xs| ==> xs[0] < xs[j] by {
        forall j | 1 <= j < |xs| ensures xs[0] < xs[j] {
          assert xs[j] == xs[1..][j - 1];
          assert xs[0] < xs[1];
          if j > 1 {
            assert xs[1..][0] < xs[1..][j - 1];
          }
        }
      }
    }
  }

  lemma CandidatesOneByte()
    ensures forall y :: y in WrongLengths(1) <==> y in Candidates(1)
  {
    assert Candidates(1) == [0, 0, 0, 2, 2];
  }

  lemma CandidatesTwoBytes()
    ensures forall y :: y in WrongLengths(2) <==> y in Candidates(2)
  {
    assert Candidates(2) == [0, 1, 1, 3, 4];
  }

  /** How many lengths a width tries: two for one byte, four for two
      bytes, all five from three bytes on. */
  lemma WrongLengthsCount(length: nat)
    requires length >= 1
    ensures length == 1 ==> |WrongLengths(length)| == 2
    ensures length == 2 ==> |WrongLengths(length)| == 4
    ensures length >= 3 ==> |WrongLengths(length)| == 5
  {
  }

  /** A case of the wrong-length suite: invalid, random bytes of the given
      length as its serial, no value. */
  predicate WrongLengthCaseOf(c: CaseArgs, size: nat, length: nat) {
    && !c.valid
    && c.value.None?
    && c.serial.Some? && |c.serial.value| == length
    && c.sedes == UInt(size)
    && c.description.None?
    && c.tags == Some(WRONG_LENGTH_TAGS)
  }

  function WrongLengthCase(size: nat, length: nat, s: Stream): (r: (CaseArgs, Stream))
    ensures WrongLengthCaseOf(r.0, size, length)
    ensures IsSuffix(r.1, s)
  {
    var (serial, rest) := GetRandomBytes(length, s);
    (CaseArgs(UInt(size), false, None, Some(serial), None, Some(WRONG_LENGTH_TAGS)), rest)
  }

  /** `count` cases of one width and one serial length. */
  function WrongLengthRepeats(size: nat, length: nat, count: nat, s: Stream): (r: (seq<CaseArgs>, Stream))
    ensures |r.0| == count
    ensures forall i :: 0 <= i < |r.0| ==> WrongLengthCaseOf(r.0[i], size, length)
    ensures IsSuffix(r.1, s)
    decreases count
  {
    if count == 0 then ([], s)
    else
      var c := WrongLengthCase(size, length, s);
      var cs := WrongLengthRepeats(size, length, count - 1, c.1);
      SuffixTransitive(cs.1, c.1, s);
      ([c.0] + cs.0, cs.1)
  }

  /** The three cases of one width and one serial length. */
  predicate WrongLengthBlockOf(b: seq<CaseArgs>, size: nat, length: nat) {
    |b| == RANDOM_TEST_CASES_PER_LENGTH && forall m :: 0 <= m < |b| ==> WrongLengthCaseOf(b[m], size, length)
  }

  /** Three cases per serial length, in the order of `lengths`. */
  function WrongLengthBlocks(size: nat, lengths: seq<nat>, s: Stream): (r: (seq<seq<CaseArgs>>, Stream))
    ensures |r.0| == |lengths|
    ensures forall j :: 0 <= j < |lengths| ==> WrongLengthBlockOf(r.0[j], size, lengths[j])
    ensures IsSuffix(r.1, s)
  {
    if |lengths| == 0 then ([], s)
    else
      var b := WrongLengthRepeats(size, lengths[0], RANDOM_TEST_CASES_PER_LENGTH, s);
      var bs := WrongLengthBlocks(size, lengths[1..], b.1);
      SuffixTransitive(bs.1, b.1, s);
      WrongLengthBlocksCons(size, lengths, b.0, bs.0);
      ([b.0] + bs.0, bs.1)
  }

  lemma WrongLengthBlocksCons(size: nat, lengths: seq<nat>, b: seq<CaseArgs>, bs: seq<seq<CaseArgs>>)
    requires |lengths| > 0 && |bs| == |lengths| - 1
    requires WrongLengthBlockOf(b, size, lengths[0])
    requires forall j :: 0 <= j < |bs| ==> WrongLengthBlockOf(bs[j], size, lengths[1..][j])
    ensures forall j :: 0 <= j < |lengths| ==> WrongLengthBlockOf(([b] + bs)[j], size, lengths[j])
  {
    assert forall j :: 1 <= j <= |bs| ==> ([b] + bs)[j] == bs[j - 1] && lengths[j] == lengths[1..][j - 1];
  }

  /** The cases of one width, as the inner loops of
      generate_uint_wrong_length_test_cases produce them. */
  function WrongLengthCasesFor(size: nat, s: Stream): (r: (seq<CaseArgs>, Stream))
    requires size >= 1
    ensures |r.0| == 3 * |WrongLengths(size)|
    ensures forall k :: 0 <= k < |r.0| ==> WrongLengthCaseFor(r.0[k], size)
    ensures IsSuffix(r.1, s)
  {
    var blocks := WrongLengthBlocks(size, WrongLengths(size), s);
    WrongLengthBlocksCount(size, WrongLengths(size), blocks.0);
    WrongLengthBlocksShape(size, blocks.0);
    (Flatten(blocks.0), blocks.1)
  }

  /** A case of one width whose serial has one of the `lengths`. */
  predicate HasOneOfLengths(c: CaseArgs, size: nat, lengths: seq<nat>) {
    c.serial.Some? && |c.serial.value| in lengths && WrongLengthCaseOf(c, size, |c.serial.value|)
  }

  /** What every wrong-length case of a width is: admissible, invalid, with
      a serial whose length is one of the tried lengths and never the
      width's own. */
  predicate WrongLengthCaseFor(c: CaseArgs, size: nat)
    requires size >= 1
  {
    && Admissible(c) && !c.valid && c.value.None? && c.sedes == UInt(size)
    && c.serial.Some? && |c.serial.value| in WrongLengths(size) && |c.serial.value| != size
  }

  /** Blocks of three cases, one per tried length, flatten to three cases
      per tried length. */
  lemma WrongLengthBlocksCount(size: nat, lengths: seq<nat>, blocks: seq<seq<CaseArgs>>)
    requires |blocks| == |lengths|
    requires forall j :: 0 <= j < |lengths| ==> WrongLengthBlockOf(blocks[j], size, lengths[j])
    ensures |Flatten(blocks)| == 3 * |lengths|
  {
    forall j | 0 <= j < |blocks| ensures |blocks[j]| == 3 {
      assert WrongLengthBlockOf(blocks[j], size, lengths[j]);
    }
    FlattenLength(blocks, 3);
  }

  /** Each case in blocks of a width's tried lengths is a wrong-length case
      of that width. */
  lemma WrongLengthBlocksShape(size: nat, blocks: seq<seq<CaseArgs>>)
    requires size >= 1
    requires |blocks| == |WrongLengths(size)|
    requires forall j :: 0 <= j < |blocks| ==> WrongLengthBlockOf(blocks[j], size, WrongLengths(size)[j])
    ensures forall k :: 0 <= k < |Flatten(blocks)| ==> WrongLengthCaseFor(Flatten(blocks)[k], size)
  {
    var lengths := WrongLengths(size);
    forall j, m | 0 <= j < |lengths| && 0 <= m < |blocks[j]| ensures WrongLengthCaseOf(blocks[j][m], size, lengths[j]) {
      assert WrongLengthBlockOf(blocks[j], size, lengths[j]);
    }
    FlattenWrongLength(blocks, size, lengths);
    var cases := Flatten(blocks);
    forall k | 0 <= k < |cases| ensures WrongLengthCaseFor(cases[k], size) {
      assert HasOneOfLengths(cases[k], size, lengths);
    }
  }

  lemma {:induction false} FlattenWrongLength(blocks: seq<seq<CaseArgs>>, size: nat, lengths: seq<nat>)
    requires |blocks| == |lengths|
    requires forall j, m :: 0 <= j < |lengths| && 0 <= m < |blocks[j]| ==> WrongLengthCaseOf(blocks[j][m], size, lengths[j])
    ensures forall k :: 0 <= k < |Flatten(blocks)| ==> HasOneOfLengths(Flatten(blocks)[k], size, lengths)
  {
    if |blocks| > 0 {
      FlattenWrongLength(blocks[1..], size, lengths[1..]);
      var rest := Flatten(blocks[1..]);
      forall k | 0 <= k < |Flatten(blocks)| ensures HasOneOfLengths(Flatten(blocks)[k], size, lengths) {
        if k >= |blocks[0]| {
          assert Flatten(blocks)[k] == rest[k - |blocks[0]|];
          assert HasOneOfLengths(rest[k - |blocks[0]|], size, lengths[1..]);
          assert lengths == [lengths[0]] + lengths[1..];
        } else {
          assert Flatten(blocks)[k] == blocks[0][k];
          assert WrongLengthCaseOf(blocks[0][k], size, lengths[0]);
        }
      }
    }
  }

  /** The cases of one width, all wrong-length cases of that width. */
  predicate WrongLengthSizeBlockOf(b: seq<CaseArgs>, size: nat) {
    size >= 1 && forall m :: 0 <= m < |b| ==> WrongLengthCaseFor(b[m], size)
  }

  /** generate_uint_wrong_length_test_cases over the last k widths: the
      cases of each width, in width order. */
  function WrongLengthSizeBlocks(k: nat, s: Stream): (r: (seq<seq<CaseArgs>>, Stream))
    requires k <= WIDTHS
    ensures |r.0| == k
    ensures forall j :: 0 <= j < k ==> WrongLengthSizeBlockOf(r.0[j], WIDTHS - k + j + 1)
    ensures IsSuffix(r.1, s)
    decreases k
  {
    if k == 0 then ([], s)
    else
      var b := WrongLengthCasesFor(WIDTHS - k + 1, s);
      var bs := WrongLengthSizeBlocks(k - 1, b.1);
      SuffixTransitive(bs.1, b.1, s);
      WrongSizeBlocksCons(k, b.0, bs.0);
      ([b.0] + bs.0, bs.1)
  }

  lemma WrongSizeBlocksCons(k: nat, b: seq<CaseArgs>, bs: seq<seq<CaseArgs>>)
    requires 0 < k <= WIDTHS && |bs| == k - 1
    requires WrongLengthSizeBlockOf(b, WIDTHS - k + 1)
    requires forall j :: 0 <= j < |bs| ==> WrongLengthSizeBlockOf(bs[j], WIDTHS - k + j + 2)
    ensures forall j :: 0 <= j < k ==> WrongLengthSizeBlockOf(([b] + bs)[j], WIDTHS - k + j + 1)
  {
    assert forall j :: 1 <= j <= |bs| ==> ([b] + bs)[j] == bs[j - 1];
  }

  /** The number of wrong-length cases over the last k widths: three per
      tried length. */
  function WrongLengthTotal(k: nat): nat
    requires k <= WIDTHS
    decreases k
  {
    if k == 0 then 0
    else 3 * |WrongLengths(WIDTHS - k + 1)| + WrongLengthTotal(k - 1)
  }

  /** A wrong-length case for the UInt it names. */
  predicate WrongForOwnWidth(c: CaseArgs) {
    c.sedes.UInt? && c.sedes.size >= 1 && WrongLengthCaseFor(c, c.sedes.size)
  }

  /** There are WrongLengthTotal(k) wrong-length cases over the last k widths. */
  lemma {:induction false} WrongLengthSizeBlocksCount(k: nat, s: Stream)
    requires k <= WIDTHS
    ensures |Flatten(WrongLengthSizeBlocks(k, s).0)| == WrongLengthTotal(k)
    decreases k
  {
    if k > 0 {
      var t := WrongLengthSizeBlocksUnfold(k, s);
      WrongLengthSizeBlocksCount(k - 1, t);
      assert WrongLengthTotal(k) == 3 * |WrongLengths(WIDTHS - k + 1)| + WrongLengthTotal(k - 1);
    }
  }

  /** The first width contributes its three cases per tried length; `t`
      is the stream the remaining widths read. */
  lemma WrongLengthSizeBlocksUnfold(k: nat, s: Stream) returns (t: Stream)
    requires 0 < k <= WIDTHS
    ensures |Flatten(WrongLengthSizeBlocks(k, s).0)|
            == 3 * |WrongLengths(WIDTHS - k + 1)| + |Flatten(WrongLengthSizeBlocks(k - 1, t).0)|
  {
    var b := WrongLengthCasesFor(WIDTHS - k + 1, s);
    t := b.1;
    var bs := WrongLengthSizeBlocks(k - 1, t).0;
    assert WrongLengthSizeBlocks(k, s).0 == [b.0] + bs;
    FlattenCons(b.0, bs);
  }

  /** Every block holds wrong-length cases of its own width only. */
  lemma WrongLengthSizeBlocksCases(k: nat, s: Stream)
    requires k <= WIDTHS
    ensures forall j, m :: 0 <= j < k && 0 <= m < |WrongLengthSizeBlocks(k, s).0[j]| ==>
              WrongForOwnWidth(WrongLengthSizeBlocks(k, s).0[j][m])
  {
    var blocks := WrongLengthSizeBlocks(k, s).0;
    forall j, m | 0 <= j < k && 0 <= m < |blocks[j]| ensures WrongForOwnWidth(blocks[j][m]) {
      assert WrongLengthSizeBlockOf(blocks[j], WIDTHS - k + j + 1);
    }
  }

  lemma {:induction false} FlattenWrongForOwnWidth(blocks: seq<seq<CaseArgs>>)
    requires forall j, m :: 0 <= j < |blocks| && 0 <= m < |blocks[j]| ==> WrongForOwnWidth(blocks[j][m])
    ensures forall k :: 0 <= k < |Flatten(blocks)| ==> WrongForOwnWidth(Flatten(blocks)[k])
  {
    if |blocks| > 0 {
      FlattenWrongForOwnWidth(blocks[1..]);
      var rest := Flatten(blocks[1..]);
      forall k | 0 <= k < |Flatten(blocks)| ensures WrongForOwnWidth(Flatten(blocks)[k]) {
        if k >= |blocks[0]| {
          assert Flatten(blocks)[k] == rest[k - |blocks[0]|];
        } else {
          assert Flatten(blocks)[k] == blocks[0][k];
        }
      }
    }
  }

  /** Widths of three bytes or more try five lengths each. */
  lemma {:induction false} WrongLengthTotalWide(k: nat)
    requires k <= WIDTHS - 2
    ensures WrongLengthTotal(k) == 15 * k
    decreases k
  {
    if k > 0 {
      WrongLengthsCount(WIDTHS - k + 1);
      WrongLengthTotalWide(k - 1);
    }
  }

  /** Over all widths: 6 cases for UInt8, 12 for UInt16 and 15 for each of
      the 62 wider ones. */
  lemma WrongLengthTotalAll()
    ensures WrongLengthTotal(WIDTHS) == 948
  {
    WrongLengthsCount(1);
    WrongLengthsCount(2);
    WrongLengthTotalWide(WIDTHS - 2);
    assert WrongLengthTotal(WIDTHS) == 6 + WrongLengthTotal(WIDTHS - 1);
    assert WrongLengthTotal(WIDTHS - 1) == 12 + WrongLengthTotal(WIDTHS - 2);
  }

  // ---------------------------------------------------------------------
  // Suites

  /** The bounds suite over the last k widths, rendered with the tag passed
      to render_test as `keyword`. */
  function BoundsRunOver(enc: (Value, Sedes) -> Bytes, keyword: string, k: nat, s: Stream): (r: (Result<Doc>, Stream))
    requires k <= WIDTHS
    ensures keyword == "version" ==> r.0.Success? && CaseCount(r.0.value) == Some(4 * k)
    ensures keyword == "version" ==>
              forall i :: 0 <= i < 4 * k ==> CaseEntry(r.0.value, i, "valid") == Some(DBool(i < 2 * k))
    ensures keyword !in RENDER_TEST_KEYWORDS ==> r.0.Failure?
    ensures r.1 == s
  {
    var cases := BoundsSuiteCases(enc, k);
    SuiteValidFlags(BOUNDS_TITLE, BOUNDS_SUMMARY, FORK, cases);
    SuiteRun(BOUNDS_TITLE, BOUNDS_SUMMARY, keyword, FORK, cases, s)
  }

  /** The body of generate_uint_bounds_test, passing the tag to
      render_test as `keyword`: with `version` it renders 128 in-bounds then
      128 out-of-bounds cases; under a name render_test does not declare it
      raises. It draws nothing. */
  function BoundsRun(enc: (Value, Sedes) -> Bytes, keyword: string, s: Stream): (r: (Result<Doc>, Stream))
    ensures keyword == "version" ==> r.0.Success? && CaseCount(r.0.value) == Some(256)
    ensures keyword == "version" ==>
              forall i :: 0 <= i < 256 ==> CaseEntry(r.0.value, i, "valid") == Some(DBool(i < 128))
    ensures keyword !in RENDER_TEST_KEYWORDS ==> r.0.Failure?
    ensures r.1 == s
  {
    BoundsRunOver(enc, keyword, WIDTHS, s)
  }

  function BoundsBody(enc: (Value, Sedes) -> Bytes, keyword: string): Action<Doc> {
    (s: Stream) => BoundsRun(enc, keyword, s)
  }

  /** generate_uint_bounds_test with the tag passed as `version`: 128
      in-bounds then 128 out-of-bounds cases, and the global random state
      is left as it was. */
  function UIntBoundsTest(mt: int -> Stream, enc: (Value, Sedes) -> Bytes, state: Stream): (r: (Result<Doc>, Stream))
    ensures r.1 == state
    ensures r.0.Success? && CaseCount(r.0.value) == Some(256)
    ensures forall i :: 0 <= i < 256 ==> CaseEntry(r.0.value, i, "valid") == Some(DBool(i < 128))
  {
    Seed(mt, BoundsBody(enc, "version"), state)
  }

  /** generate_uint_bounds_test as written: render_test has no `fork`
      parameter, so the call raises before any document is built. */
  function UIntBoundsTestAsWritten(mt: int -> Stream, enc: (Value, Sedes) -> Bytes, state: Stream): (r: (Result<Doc>, Stream))
    ensures r.1 == state
    ensures r.0.Failure?
  {
    Seed(mt, BoundsBody(enc, "fork"), state)
  }

  /** The body of generate_uint_random_test: ten valid cases per width,
      drawn from `s`. */
  function RandomRun(enc: (Value, Sedes) -> Bytes, keyword: string, s: Stream): (r: (Result<Doc>, Stream))
    ensures keyword == "version" ==> r.0.Success? && CaseCount(r.0.value) == Some(640)
    ensures keyword !in RENDER_TEST_KEYWORDS ==> r.0.Failure?
    ensures IsSuffix(r.1, s)
  {
    var cases := RandomSuiteCases(enc, WIDTHS, s);
    SuiteRun(RANDOM_TITLE, RANDOM_SUMMARY, keyword, FORK, cases.0, cases.1)
  }

  function RandomBody(enc: (Value, Sedes) -> Bytes, keyword: string): Action<Doc> {
    (s: Stream) => RandomRun(enc, keyword, s)
  }

  /** generate_uint_random_test with the tag passed as `version`: ten
      valid cases per width. */
  function UIntRandomTest(mt: int -> Stream, enc: (Value, Sedes) -> Bytes, state: Stream): (r: (Result<Doc>, Stream))
    ensures r.1 == state
    ensures r.0.Success? && CaseCount(r.0.value) == Some(640)
  {
    Seed(mt, RandomBody(enc, "version"), state)
  }

  /** generate_uint_random_test as written. */
  function UIntRandomTestAsWritten(mt: int -> Stream, enc: (Value, Sedes) -> Bytes, state: Stream): (r: (Result<Doc>, Stream))
    ensures r.1 == state
    ensures r.0.Failure?
  {
    Seed(mt, RandomBody(enc, "fork"), state)
  }

  /** The body of generate_uint_wrong_length_test: three cases per tried
      length and width, drawn from `s`. */
  function WrongLengthRun(keyword: string, s: Stream): (r: (Result<Doc>, Stream))
    ensures keyword == "version" ==> r.0.Success? && CaseCount(r.0.value) == Some(948)
    ensures keyword !in RENDER_TEST_KEYWORDS ==> r.0.Failure?
    ensures IsSuffix(r.1, s)
  {
    var cases := WrongLengthSuiteCases(WIDTHS, s);
    WrongLengthTotalAll();
    SuiteRun(WRONG_LENGTH_TITLE, WRONG_LENGTH_SUMMARY, keyword, FORK, cases.0, cases.1)
  }

  /** The wrong-length suite's cases over the last k widths, and the state
      the draws leave behind: each one a wrong-length case of the UInt it
      names, so each keeps the invariant. */
  function WrongLengthSuiteCases(k: nat, s: Stream): (r: (seq<CaseArgs>, Stream))
    requires k <= WIDTHS
    ensures |r.0| == WrongLengthTotal(k)
    ensures forall i :: 0 <= i < |r.0| ==> WrongForOwnWidth(r.0[i]) && Admissible(r.0[i])
    ensures IsSuffix(r.1, s)
  {
    var blocks := WrongLengthSizeBlocks(k, s);
    WrongLengthSizeBlocksCount(k, s);
    WrongLengthSizeBlocksCases(k, s);
    FlattenWrongForOwnWidth(blocks.0);
    var cases := Flatten(blocks.0);
    WrongForOwnWidthAdmissible(cases);
    (cases, blocks.1)
  }

  /** A wrong-length case keeps the invariant: invalid, serial only. */
  lemma WrongForOwnWidthAdmissible(cases: seq<CaseArgs>)
    requires forall i :: 0 <= i < |cases| ==> WrongForOwnWidth(cases[i])
    ensures forall i :: 0 <= i < |cases| ==> Admissible(cases[i])
  {
    forall i | 0 <= i < |cases| ensures Admissible(cases[i]) {
      assert WrongLengthCaseFor(cases[i], cases[i].sedes.size);
    }
  }

  function WrongLengthBody(keyword: string): Action<Doc> {
    (s: Stream) => WrongLengthRun(keyword, s)
  }

  /** generate_uint_wrong_length_test with the tag passed as `version`. */
  function UIntWrongLengthTest(mt: int -> Stream, state: Stream): (r: (Result<Doc>, Stream))
    ensures r.1 == state
    ensures r.0.Success? && CaseCount(r.0.value) == Some(948)
  {
    Seed(mt, WrongLengthBody("version"), state)
  }

  /** generate_uint_wrong_length_test as written. */
  function UIntWrongLengthTestAsWritten(mt: int -> Stream, state: Stream): (r: (Result<Doc>, Stream))
    ensures r.1 == state
    ensures r.0.Failure?
  {
    Seed(mt, WrongLengthBody("fork"), state)
  }
}
