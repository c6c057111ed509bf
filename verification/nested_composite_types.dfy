/** ssz/nested_composite_types.py: random values for any schema, the random
    schema builders (shallow two-layer and deep recursive) and the two
    seeded suites built from them. Every random call reads the explicit
    draw stream. */
module NestedComposite {
  import opened Wrappers
  import opened Schema
  import opened Draws
  import opened Renderers
  import opened RandomScope

  const NUM_TEST_CASES_PER_TYPE: nat := 20
  const MAX_RANDOM_LIST_LENGTH: nat := 16
  const MAX_RANDOM_VECTOR_LENGTH: nat := 16
  const NUM_DEEP_NESTING_TEST_CASES: nat := 20
  const DEEP_NESTING_MAX_WIDTH: nat := 4
  /** The deep builder goes one layer deeper with probability
      1 - 1/DEEP_NESTING_EXPECTED_BRANCH_LENGTH. */
  const DEEP_NESTING_EXPECTED_BRANCH_LENGTH: nat := 4

  /** get_random_basic_sedes: Boolean or one of the UInt widths. */
  function RandomBasicSedes(s: Stream): (r: (Sedes, Stream))
    ensures r.0 in BASIC_SEDES
    ensures IsSuffix(r.1, s)
  {
    Choice(BASIC_SEDES, s)
  }

  // ---------------------------------------------------------------------
  // Random values

  /** The shape get_random_value promises: a Vector gets exactly its length
      of elements, a List at most `maxListLength`, a Container one value
      per field in field order, a UInt a value in [0, 8^size]. */
  predicate Generated(v: Value, sedes: Sedes, maxListLength: nat)
    decreases sedes
  {
    match sedes
    case Boolean => v.VBool?
    case UInt(n) => v.VInt? && 0 <= v.i <= Pow(8, n)
    case Vector(e, len) =>
      v.VSeq? && |v.items| == len
      && forall k :: 0 <= k < |v.items| ==> Generated(v.items[k], e, maxListLength)
    case List(e) =>
      v.VSeq? && |v.items| <= maxListLength
      && forall k :: 0 <= k < |v.items| ==> Generated(v.items[k], e, maxListLength)
    case Container(fs) =>
      v.VSeq? && |v.items| == |fs|
      && forall k :: 0 <= k < |fs| ==> Generated(v.items[k], fs[k], maxListLength)
  }

  /** get_random_value. */
  function RandomValue(sedes: Sedes, maxListLength: nat, s: Stream): (r: (Value, Stream))
    ensures Generated(r.0, sedes, maxListLength)
    ensures IsSuffix(r.1, s)
    decreases sedes, 0, 0
  {
    match sedes
    case Boolean =>
      var (b, rest) := RandomBool(s);
      (VBool(b), rest)
    case UInt(n) =>
      var (i, rest) := RandInt(0, Pow(8, n), s);
      (VInt(i), rest)
    case Vector(e, len) =>
      var (items, rest) := RandomValues(e, len, maxListLength, s);
      (VSeq(items), rest)
    case List(e) =>
      var (len, t) := RandInt(0, maxListLength, s);
      var (items, rest) := RandomValues(e, len, maxListLength, t);
      SuffixTransitive(rest, t, s);
      (VSeq(items), rest)
    case Container(fs) =>
      var (items, rest) := RandomFieldValues(fs, maxListLength, s);
      (VSeq(items), rest)
  }

  /** `count` values of one element schema, drawn in order. */
  function RandomValues(e: Sedes, count: nat, maxListLength: nat, s: Stream): (r: (seq<Value>, Stream))
    ensures |r.0| == count
    ensures forall k :: 0 <= k < count ==> Generated(r.0[k], e, maxListLength)
    ensures IsSuffix(r.1, s)
    decreases e, 1, count
  {
    if count == 0 then ([], s)
    else
      var (v, t) := RandomValue(e, maxListLength, s);
      var (vs, rest) := RandomValues(e, count - 1, maxListLength, t);
      SuffixTransitive(rest, t, s);
      ([v] + vs, rest)
  }

  /** One value per field, in field order. */
  function RandomFieldValues(fs: seq<Sedes>, maxListLength: nat, s: Stream): (r: (seq<Value>, Stream))
    ensures |r.0| == |fs|
    ensures forall k :: 0 <= k < |fs| ==> Generated(r.0[k], fs[k], maxListLength)
    ensures IsSuffix(r.1, s)
    decreases fs, 0, 0
  {
    if |fs| == 0 then ([], s)
    else
      var (v, t) := RandomValue(fs[0], maxListLength, s);
      var (vs, rest) := RandomFieldValues(fs[1..], maxListLength, t);
      SuffixTransitive(rest, t, s);
      assert forall k :: 1 <= k < |fs| ==> fs[k] == fs[1..][k - 1];
      ([v] + vs, rest)
  }

  /** Every generated value of a schema without zero-width UInts is one the
      codec accepts, since 8^size never exceeds the UInt's maximum. */
  lemma {:induction false} GeneratedConforms(v: Value, sedes: Sedes, maxListLength: nat)
    requires WellFormed(sedes)
    requires Generated(v, sedes, maxListLength)
    ensures Conforms(v, sedes)
    decreases sedes
  {
    match sedes
    case Boolean =>
    case UInt(n) => EightPowFitsUInt(n);
    case Vector(e, _) =>
      forall k | 0 <= k < |v.items| ensures Conforms(v.items[k], e) {
        GeneratedConforms(v.items[k], e, maxListLength);
      }
    case List(e) =>
      forall k | 0 <= k < |v.items| ensures Conforms(v.items[k], e) {
        GeneratedConforms(v.items[k], e, maxListLength);
      }
    case Container(fs) =>
      forall k | 0 <= k < |fs| ensures Conforms(v.items[k], fs[k]) {
        GeneratedConforms(v.items[k], fs[k], maxListLength);
      }
  }

  lemma {:induction false} LeavesBasicWellFormed(sedes: Sedes)
    requires AllLeavesBasic(sedes)
    ensures WellFormed(sedes)
    decreases sedes
  {
    match sedes
    case Boolean =>
    case UInt(_) =>
    case Vector(e, _) => LeavesBasicWellFormed(e);
    case List(e) => LeavesBasicWellFormed(e);
    case Container(fs) =>
      forall k | 0 <= k < |fs| ensures WellFormed(fs[k]) {
        LeavesBasicWellFormed(fs[k]);
      }
  }

  // ---------------------------------------------------------------------
  // Random schemas

  /** The composite builders: get_random_list_sedes and the two others
      with their `max_length` bound fixed. */
  datatype Kind = ListKind | VectorKind(maxLength: nat) | ContainerKind(maxLength: nat)

  /** The element factory a builder is handed: get_random_basic_sedes,
      get_random_deep_nested_sedes, or a composite builder partially
      applied to another factory. */
  datatype Factory = BasicFactory | DeepFactory | CompositeFactory(kind: Kind, inner: Factory)

  function FactorySize(f: Factory): nat {
    match f
    case BasicFactory => 1
    case DeepFactory => 1
    case CompositeFactory(_, i) => 1 + FactorySize(i)
  }

  /** The schema is of the composite kind the builder makes, within its
      width bound. */
  predicate OfKind(k: Kind, s: Sedes) {
    match k
    case ListKind => s.List?
    case VectorKind(m) => s.Vector? && s.length <= m
    case ContainerKind(m) => s.Container? && |s.fields| <= m
  }

  function Children(s: Sedes): seq<Sedes> {
    match s
    case Boolean => []
    case UInt(_) => []
    case List(e) => [e]
    case Vector(e, _) => [e]
    case Container(fs) => fs
  }

  /** What a factory can produce: a basic schema; a deep schema with basic
      leaves and width at most DEEP_NESTING_MAX_WIDTH; or a composite of
      the factory's kind whose every child the inner factory can produce. */
  predicate Built(f: Factory, s: Sedes)
    decreases f
  {
    match f
    case BasicFactory => s in BASIC_SEDES
    case DeepFactory => AllLeavesBasic(s) && WidthAtMost(s, DEEP_NESTING_MAX_WIDTH)
    case CompositeFactory(k, i) =>
      OfKind(k, s) && forall j :: 0 <= j < |Children(s)| ==> Built(i, Children(s)[j])
  }

  const DEEP_KINDS: seq<Kind> :=
    [ListKind, VectorKind(DEEP_NESTING_MAX_WIDTH), ContainerKind(DEEP_NESTING_MAX_WIDTH)]

  /** Calls a factory. For the deep factory the depth of the schema is at
      most the number of "go deeper" draws in the stream it reads. */
  function Build(f: Factory, s: Stream): (r: (Sedes, Stream))
    ensures Built(f, r.0)
    ensures IsSuffix(r.1, s)
    ensures f == DeepFactory ==> Depth(r.0) <= GoOnCount(s, DEEP_NESTING_EXPECTED_BRANCH_LENGTH)
    decreases |s|, FactorySize(f), 1, 0
  {
    match f
    case BasicFactory => RandomBasicSedes(s)
    case DeepFactory => DeepSedes(s)
    case CompositeFactory(k, i) => BuildKind(k, i, s)
  }

  /** get_random_list_sedes, get_random_vector_sedes and
      get_random_container_sedes: the width (when there is one) is drawn
      first, then the element or field schemas from the factory. */
  function BuildKind(k: Kind, inner: Factory, s: Stream): (r: (Sedes, Stream))
    ensures Built(CompositeFactory(k, inner), r.0)
    ensures IsSuffix(r.1, s)
    ensures inner == DeepFactory ==>
              Depth(r.0) <= 1 + GoOnCount(s, DEEP_NESTING_EXPECTED_BRANCH_LENGTH)
    decreases |s|, FactorySize(inner) + 1, 0, 1
  {
    match k
    case ListKind => BuildList(inner, s)
    case VectorKind(m) => BuildVector(m, inner, s)
    case ContainerKind(m) => BuildContainer(m, inner, s)
  }

  /** get_random_list_sedes: one element schema from the factory. */
  function BuildList(inner: Factory, s: Stream): (r: (Sedes, Stream))
    ensures Built(CompositeFactory(ListKind, inner), r.0)
    ensures IsSuffix(r.1, s)
    ensures inner == DeepFactory ==>
              Depth(r.0) <= 1 + GoOnCount(s, DEEP_NESTING_EXPECTED_BRANCH_LENGTH)
    decreases |s|, FactorySize(inner) + 1, 0, 0
  {
    var (e, rest) := Build(inner, s);
    assert Children(List(e)) == [e];
    (List(e), rest)
  }

  /** get_random_vector_sedes: a length in [0, m], then one element schema. */
  function BuildVector(m: nat, inner: Factory, s: Stream): (r: (Sedes, Stream))
    ensures Built(CompositeFactory(VectorKind(m), inner), r.0)
    ensures IsSuffix(r.1, s)
    ensures inner == DeepFactory ==>
              Depth(r.0) <= 1 + GoOnCount(s, DEEP_NESTING_EXPECTED_BRANCH_LENGTH)
    decreases |s|, FactorySize(inner) + 1, 0, 0
  {
    var (len, t) := RandInt(0, m, s);
    var (e, rest) := Build(inner, t);
    SuffixTransitive(rest, t, s);
    GoOnCountSuffix(t, s, DEEP_NESTING_EXPECTED_BRANCH_LENGTH);
    assert Children(Vector(e, len)) == [e];
    (Vector(e, len), rest)
  }

  /** get_random_container_sedes: a field count in [0, m], then that many
      field schemas. */
  function BuildContainer(m: nat, inner: Factory, s: Stream): (r: (Sedes, Stream))
    ensures Built(CompositeFactory(ContainerKind(m), inner), r.0)
    ensures IsSuffix(r.1, s)
    ensures inner == DeepFactory ==>
              Depth(r.0) <= 1 + GoOnCount(s, DEEP_NESTING_EXPECTED_BRANCH_LENGTH)
    decreases |s|, FactorySize(inner) + 1, 0, 0
  {
    var (len, t) := RandInt(0, m, s);
    var (fs, rest) := BuildFields(inner, len, t);
    SuffixTransitive(rest, t, s);
    GoOnCountSuffix(t, s, DEEP_NESTING_EXPECTED_BRANCH_LENGTH);
    MaxDepthBound(fs, GoOnCount(t, DEEP_NESTING_EXPECTED_BRANCH_LENGTH));
    assert Children(Container(fs)) == fs;
    (Container(fs), rest)
  }

  /** `count` field schemas from one factory, in order. */
  function BuildFields(inner: Factory, count: nat, s: Stream): (r: (seq<Sedes>, Stream))
    ensures |r.0| == count
    ensures forall k :: 0 <= k < count ==> Built(inner, r.0[k])
    ensures IsSuffix(r.1, s)
    ensures inner == DeepFactory ==>
              forall k :: 0 <= k < count ==>
                Depth(r.0[k]) <= GoOnCount(s, DEEP_NESTING_EXPECTED_BRANCH_LENGTH)
    decreases |s|, FactorySize(inner), 2, count
  {
    if count == 0 then ([], s)
    else
      var (f, t) := Build(inner, s);
      var (fs, rest) := BuildFields(inner, count - 1, t);
      SuffixTransitive(rest, t, s);
      GoOnCountSuffix(t, s, DEEP_NESTING_EXPECTED_BRANCH_LENGTH);
      ([f] + fs, rest)
  }

  /** get_random_deep_nested_sedes: one coin is read before branching; a
      "stop" coin yields a basic schema, a "go deeper" coin one of the three
      composite builders around further calls of this builder. Each layer
      consumes its coin, so the recursion ends once the finite stream does,
      and the depth is bounded by the number of "go deeper" draws. */
  function DeepSedes(s: Stream): (r: (Sedes, Stream))
    ensures AllLeavesBasic(r.0)
    ensures WidthAtMost(r.0, DEEP_NESTING_MAX_WIDTH)
    ensures Depth(r.0) <= GoOnCount(s, DEEP_NESTING_EXPECTED_BRANCH_LENGTH)
    ensures IsSuffix(r.1, s)
    decreases |s|, 0, 0, 0
  {
    var (goDeeper, t) := Coin(DEEP_NESTING_EXPECTED_BRANCH_LENGTH, s);
    if !goDeeper then
      var (b, rest) := RandomBasicSedes(t);
      SuffixTransitive(rest, t, s);
      (b, rest)
    else
      var (k, u) := Choice(DEEP_KINDS, t);
      var (c, rest) := BuildKind(k, DeepFactory, u);
      SuffixTransitive(u, t, s);
      SuffixTransitive(rest, u, s);
      GoOnCountSuffix(u, t, DEEP_NESTING_EXPECTED_BRANCH_LENGTH);
      DeepCompositeShape(k, c);
      (c, rest)
  }

  /** A composite of a deep kind whose children all have basic leaves and
      bounded width has basic leaves and bounded width itself. */
  lemma DeepCompositeShape(k: Kind, c: Sedes)
    requires k in DEEP_KINDS
    requires Built(CompositeFactory(k, DeepFactory), c)
    ensures AllLeavesBasic(c) && WidthAtMost(c, DEEP_NESTING_MAX_WIDTH)
  {
    match c
    case List(e) => assert Children(c)[0] == e;
    case Vector(e, _) => assert Children(c)[0] == e;
    case Container(fs) => assert Children(c) == fs;
  }

  // ---------------------------------------------------------------------
  // Test cases

  const SHALLOW_TAGS: seq<string> := ["composite", "nested", "shallow"]
  const DEEP_TAGS: seq<string> := ["composite", "nested", "deep"]

  /** The composite builders of the two-layer generator; the Container
      builder is bounded by MAX_RANDOM_VECTOR_LENGTH, as written. */
  const SHALLOW_KINDS: seq<Kind> :=
    [ListKind, VectorKind(MAX_RANDOM_VECTOR_LENGTH), ContainerKind(MAX_RANDOM_VECTOR_LENGTH)]

  /** 3 inner builders x 3 outer builders x NUM_TEST_CASES_PER_TYPE. */
  const TWO_LAYER_CASE_COUNT: nat := 180

  /** The outer and inner builder of two-layer case number n: the pairings
      are visited inner-major (itertools.product(inner, outer)), each
      NUM_TEST_CASES_PER_TYPE times in a row. */
  function OuterKindOf(n: nat): Kind
    requires n < TWO_LAYER_CASE_COUNT
  {
    SHALLOW_KINDS[(n / NUM_TEST_CASES_PER_TYPE) % 3]
  }

  function InnerKindOf(n: nat): Kind
    requires n < TWO_LAYER_CASE_COUNT
  {
    SHALLOW_KINDS[(n / NUM_TEST_CASES_PER_TYPE) / 3]
  }

  /** Two-layer case number n: outer(inner(basic)) with a value of the
      shape get_random_value promises. */
  predicate TwoLayerCase(c: CaseArgs, n: nat, enc: (Value, Sedes) -> Bytes)
    requires n < TWO_LAYER_CASE_COUNT
  {
    && ValidCase(c, enc, SHALLOW_TAGS)
    && Built(CompositeFactory(OuterKindOf(n), CompositeFactory(InnerKindOf(n), BasicFactory)), c.sedes)
    && Generated(c.value.value, c.sedes, MAX_RANDOM_LIST_LENGTH)
  }

  /** One two-layer case: build the outer schema around the inner builder,
      draw a value, encode it. */
  function TwoLayerCaseAt(enc: (Value, Sedes) -> Bytes, n: nat, s: Stream): (r: (CaseArgs, Stream))
    requires n < TWO_LAYER_CASE_COUNT
    ensures TwoLayerCase(r.0, n, enc)
    ensures IsSuffix(r.1, s)
  {
    var (sedes, t) := BuildKind(OuterKindOf(n), CompositeFactory(InnerKindOf(n), BasicFactory), s);
    var (value, rest) := RandomValue(sedes, MAX_RANDOM_LIST_LENGTH, t);
    SuffixTransitive(rest, t, s);
    TwoLayerConforms(n, sedes, value);
    (CaseArgs(sedes, true, Some(value), Some(enc(value, sedes)), None, Some(SHALLOW_TAGS)), rest)
  }

  /** A composite all of whose children have basic leaves has basic leaves. */
  lemma ChildrenLeavesBasic(s: Sedes)
    requires !s.IsBasic()
    requires forall j :: 0 <= j < |Children(s)| ==> AllLeavesBasic(Children(s)[j])
    ensures AllLeavesBasic(s)
  {
    match s
    case List(e) => assert Children(s)[0] == e;
    case Vector(e, _) => assert Children(s)[0] == e;
    case Container(fs) => assert Children(s) == fs;
  }

  /** A schema built by a composite builder around basic schemas is a
      composite of basic schemas. */
  lemma OneLayerShape(k: Kind, sedes: Sedes)
    requires Built(CompositeFactory(k, BasicFactory), sedes)
    ensures !sedes.IsBasic() && AllLeavesBasic(sedes)
    ensures forall g :: 0 <= g < |Children(sedes)| ==> Children(sedes)[g].IsBasic()
  {
    ChildrenLeavesBasic(sedes);
  }

  /** A schema built by an outer builder around an inner builder of basic
      schemas is a composite whose every child is a composite of basic
      schemas. */
  lemma TwoLayerShape(outer: Kind, inner: Kind, sedes: Sedes)
    requires Built(CompositeFactory(outer, CompositeFactory(inner, BasicFactory)), sedes)
    ensures !sedes.IsBasic() && AllLeavesBasic(sedes)
    ensures forall j :: 0 <= j < |Children(sedes)| ==>
              !Children(sedes)[j].IsBasic()
              && forall g :: 0 <= g < |Children(Children(sedes)[j])| ==>
                   Children(Children(sedes)[j])[g].IsBasic()
  {
    forall j | 0 <= j < |Children(sedes)|
      ensures !Children(sedes)[j].IsBasic() && AllLeavesBasic(Children(sedes)[j])
      ensures forall g :: 0 <= g < |Children(Children(sedes)[j])| ==>
                Children(Children(sedes)[j])[g].IsBasic()
    {
      OneLayerShape(inner, Children(sedes)[j]);
    }
    ChildrenLeavesBasic(sedes);
  }

  lemma TwoLayerConforms(n: nat, sedes: Sedes, value: Value)
    requires n < TWO_LAYER_CASE_COUNT
    requires Built(CompositeFactory(OuterKindOf(n), CompositeFactory(InnerKindOf(n), BasicFactory)), sedes)
    requires Generated(value, sedes, MAX_RANDOM_LIST_LENGTH)
    ensures Conforms(value, sedes)
  {
    TwoLayerShape(OuterKindOf(n), InnerKindOf(n), sedes);
    LeavesBasicWellFormed(sedes);
    GeneratedConforms(value, sedes, MAX_RANDOM_LIST_LENGTH);
  }

  /** generate_two_layer_composite_test_cases with k cases still to go:
      the next one is case number TWO_LAYER_CASE_COUNT - k. */
  function TwoLayerCasesLeft(enc: (Value, Sedes) -> Bytes, k: nat, s: Stream): (r: (seq<CaseArgs>, Stream))
    requires k <= TWO_LAYER_CASE_COUNT
    ensures |r.0| == k
    ensures forall j :: 0 <= j < k ==> TwoLayerCase(r.0[j], TWO_LAYER_CASE_COUNT - k + j, enc)
    ensures IsSuffix(r.1, s)
    decreases k
  {
    if k == 0 then ([], s)
    else
      var (c, t) := TwoLayerCaseAt(enc, TWO_LAYER_CASE_COUNT - k, s);
      var (cs, rest) := TwoLayerCasesLeft(enc, k - 1, t);
      SuffixTransitive(rest, t, s);
      TwoLayerCasesCons(enc, k, c, cs);
      ([c] + cs, rest)
  }

  lemma TwoLayerCasesCons(enc: (Value, Sedes) -> Bytes, k: nat, c: CaseArgs, cs: seq<CaseArgs>)
    requires 0 < k <= TWO_LAYER_CASE_COUNT && |cs| == k - 1
    requires TwoLayerCase(c, TWO_LAYER_CASE_COUNT - k, enc)
    requires forall j :: 0 <= j < |cs| ==> TwoLayerCase(cs[j], TWO_LAYER_CASE_COUNT - k + 1 + j, enc)
    ensures forall j :: 0 <= j < k ==> TwoLayerCase(([c] + cs)[j], TWO_LAYER_CASE_COUNT - k + j, enc)
  {
    var all := [c] + cs;
    forall j | 0 <= j < k ensures TwoLayerCase(all[j], TWO_LAYER_CASE_COUNT - k + j, enc) {
      if j > 0 {
        assert all[j] == cs[j - 1];
      }
    }
  }

  /** Every two-layer case is admissible, tagged ("composite", "nested",
      "shallow"), and is a composite whose every child is a composite of
      basic schemas. */
  lemma TwoLayerCasesShape(enc: (Value, Sedes) -> Bytes, k: nat, s: Stream)
    requires k <= TWO_LAYER_CASE_COUNT
    ensures var cs := TwoLayerCasesLeft(enc, k, s).0;
      forall j :: 0 <= j < |cs| ==>
        && Admissible(cs[j])
        && cs[j].tags == Some(SHALLOW_TAGS)
        && !cs[j].sedes.IsBasic()
        && forall g :: 0 <= g < |Children(cs[j].sedes)| ==> !Children(cs[j].sedes)[g].IsBasic()
  {
    var cs := TwoLayerCasesLeft(enc, k, s).0;
    forall j | 0 <= j < |cs|
      ensures Admissible(cs[j]) && cs[j].tags == Some(SHALLOW_TAGS) && !cs[j].sedes.IsBasic()
      ensures forall g :: 0 <= g < |Children(cs[j].sedes)| ==> !Children(cs[j].sedes)[g].IsBasic()
    {
      var n := TWO_LAYER_CASE_COUNT - k + j;
      assert TwoLayerCase(cs[j], n, enc);
      TwoLayerShape(OuterKindOf(n), InnerKindOf(n), cs[j].sedes);
    }
  }

  /** A deep case: a valid case whose schema has basic leaves and width at
      most DEEP_NESTING_MAX_WIDTH, and whose value has the promised shape
      with lists no longer than that width. */
  predicate DeepCase(c: CaseArgs, enc: (Value, Sedes) -> Bytes) {
    && ValidCase(c, enc, DEEP_TAGS)
    && AllLeavesBasic(c.sedes)
    && WidthAtMost(c.sedes, DEEP_NESTING_MAX_WIDTH)
    && Generated(c.value.value, c.sedes, DEEP_NESTING_MAX_WIDTH)
  }

  /** One deep case: a deep schema, a value for it, its encoding. */
  function DeepCaseAt(enc: (Value, Sedes) -> Bytes, s: Stream): (r: (CaseArgs, Stream))
    ensures DeepCase(r.0, enc)
    ensures IsSuffix(r.1, s)
  {
    var (sedes, t) := DeepSedes(s);
    var (value, rest) := RandomValue(sedes, DEEP_NESTING_MAX_WIDTH, t);
    LeavesBasicWellFormed(sedes);
    GeneratedConforms(value, sedes, DEEP_NESTING_MAX_WIDTH);
    SuffixTransitive(rest, t, s);
    (CaseArgs(sedes, true, Some(value), Some(enc(value, sedes)), None, Some(DEEP_TAGS)), rest)
  }

  /** generate_deeply_nested_composite_test_cases with `count` cases still
      to go; every case is drawn the same way. */
  function DeepCases(enc: (Value, Sedes) -> Bytes, count: nat, s: Stream): (r: (seq<CaseArgs>, Stream))
    ensures |r.0| == count
    ensures forall k :: 0 <= k < |r.0| ==> DeepCase(r.0[k], enc)
    ensures IsSuffix(r.1, s)
    decreases count
  {
    if count == 0 then ([], s)
    else
      var (c, t) := DeepCaseAt(enc, s);
      var (cs, rest) := DeepCases(enc, count - 1, t);
      SuffixTransitive(rest, t, s);
      DeepCasesCons(enc, c, cs);
      ([c] + cs, rest)
  }

  lemma DeepCasesCons(enc: (Value, Sedes) -> Bytes, c: CaseArgs, cs: seq<CaseArgs>)
    requires DeepCase(c, enc)
    requires forall k :: 0 <= k < |cs| ==> DeepCase(cs[k], enc)
    ensures forall k :: 0 <= k < |cs| + 1 ==> DeepCase(([c] + cs)[k], enc)
  {
    var all := [c] + cs;
    forall k | 0 <= k < |all| ensures DeepCase(all[k], enc) {
      if k > 0 {
        assert all[k] == cs[k - 1];
      }
    }
  }

  /** `count` deep cases, each keeping the invariant. */
  function DeepSuiteCases(enc: (Value, Sedes) -> Bytes, count: nat, s: Stream): (r: (seq<CaseArgs>, Stream))
    ensures |r.0| == count
    ensures forall k :: 0 <= k < |r.0| ==> Admissible(r.0[k])
    ensures IsSuffix(r.1, s)
  {
    var cases := DeepCases(enc, count, s);
    forall k | 0 <= k < |cases.0| ensures Admissible(cases.0[k]) {
      assert DeepCase(cases.0[k], enc);
    }
    cases
  }

  // ---------------------------------------------------------------------
  // Seeded suites

  const TWO_LAYER_TITLE: string := "Nested composite types"
  const TWO_LAYER_SUMMARY: string := "Tests for composite types of other composite types"
  const DEEP_TITLE: string := "Deeply nested composite types"
  const DEEP_SUMMARY: string := "Tests for nested composite types with a random number of layers"
  /** The version both nested suites pass to render_test. */
  const NESTED_VERSION: string := "0.1"

  /** The last k two-layer cases, drawn from `s`: all admissible. */
  function TwoLayerSuiteCases(enc: (Value, Sedes) -> Bytes, k: nat, s: Stream): (r: (seq<CaseArgs>, Stream))
    requires k <= TWO_LAYER_CASE_COUNT
    ensures |r.0| == k
    ensures forall j :: 0 <= j < |r.0| ==> Admissible(r.0[j])
    ensures IsSuffix(r.1, s)
  {
    TwoLayerCasesShape(enc, k, s);
    TwoLayerCasesLeft(enc, k, s)
  }

  /** The body of generate_two_layer_composite_test: the 180 cases, drawn
      from `s`, rendered under the `version` keyword. */
  function TwoLayerRun(enc: (Value, Sedes) -> Bytes, s: Stream): (r: (Result<Doc>, Stream))
    ensures r.0.Success? && CaseCount(r.0.value) == Some(TWO_LAYER_CASE_COUNT)
    ensures IsSuffix(r.1, s)
  {
    var cases := TwoLayerSuiteCases(enc, TWO_LAYER_CASE_COUNT, s);
    SuiteRun(TWO_LAYER_TITLE, TWO_LAYER_SUMMARY, "version", NESTED_VERSION, cases.0, cases.1)
  }

  function TwoLayerSuiteBody(enc: (Value, Sedes) -> Bytes): Action<Doc> {
    (s: Stream) => TwoLayerRun(enc, s)
  }

  /** generate_two_layer_composite_test: a seeded suite of 180 valid cases
      that leaves the global random state as it found it. */
  function TwoLayerSuite(mt: int -> Stream, enc: (Value, Sedes) -> Bytes, state: Stream): (r: (Result<Doc>, Stream))
    ensures r.1 == state
    ensures r.0.Success? && CaseCount(r.0.value) == Some(TWO_LAYER_CASE_COUNT)
  {
    Seed(mt, TwoLayerSuiteBody(enc), state)
  }

  /** The body of generate_deeply_nested_composite_test: the 20 deep cases,
      drawn from `s`, rendered under the `version` keyword. */
  function DeepRun(enc: (Value, Sedes) -> Bytes, s: Stream): (r: (Result<Doc>, Stream))
    ensures r.0.Success? && CaseCount(r.0.value) == Some(NUM_DEEP_NESTING_TEST_CASES)
    ensures IsSuffix(r.1, s)
  {
    var cases := DeepSuiteCases(enc, NUM_DEEP_NESTING_TEST_CASES, s);
    SuiteRun(DEEP_TITLE, DEEP_SUMMARY, "version", NESTED_VERSION, cases.0, cases.1)
  }

  function DeepSuiteBody(enc: (Value, Sedes) -> Bytes): Action<Doc> {
    (s: Stream) => DeepRun(enc, s)
  }

  /** generate_deeply_nested_composite_test: a seeded suite of 20 valid
      cases that leaves the global random state as it found it. */
  function DeepSuite(mt: int -> Stream, enc: (Value, Sedes) -> Bytes, state: Stream): (r: (Result<Doc>, Stream))
    ensures r.1 == state
    ensures r.0.Success? && CaseCount(r.0.value) == Some(NUM_DEEP_NESTING_TEST_CASES)
  {
    Seed(mt, DeepSuiteBody(enc), state)
  }
}
