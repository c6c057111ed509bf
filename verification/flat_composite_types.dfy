/** ssz/flat_composite_types.py: Lists, Vectors and Containers of basic
    schemas. The module draws from its own `Random(0)` instance, which no
    seeding scope restores: its state is the stream threaded through every
    generator here, and a suite hands back the stream it leaves behind. */
module FlatComposite {
  import opened Wrappers
  import opened Schema
  import opened Draws
  import opened Text
  import opened Renderers

  const NUM_RANDOM_LENGTHS: nat := 16
  const MAX_RANDOM_LIST_LENGTH: nat := 512
  const MAX_RANDOM_VECTOR_LENGTH: nat := 512
  const MAX_RANDOM_CONTAINER_LENGTH: nat := 32

  const LIST_TAGS: seq<string> := ["composite", "list", "flat"]
  const HOMOGENOUS_TAGS: seq<string> := ["composite", "container", "flat", "homogenous"]
  const HETEROGENOUS_TAGS: seq<string> := ["composite", "container", "flat", "heterogenous"]
  const VECTOR_TAGS: seq<string> := ["composite", "vector", "flat", "homogenous"]

  // ---------------------------------------------------------------------
  // Basic values

  /** A basic value as the generators draw it: any bool for Boolean, an
      integer in [0, 8^size] for a UInt. */
  predicate DrawnBasic(v: Value, sedes: Sedes) {
    match sedes
    case Boolean => v.VBool?
    case UInt(n) => v.VInt? && 0 <= v.i <= Pow(8, n)
    case _ => false
  }

  /** get_random_basic_value: a bool or a UInt value; any other schema
      raises ValueError before a draw is taken. */
  function RandomBasicValue(sedes: Sedes, s: Stream): (r: (Result<Value>, Stream))
    ensures r.0.Success? <==> sedes.IsBasic()
    ensures r.0.Success? ==> DrawnBasic(r.0.value, sedes)
    ensures r.0.Failure? ==> r.1 == s
    ensures IsSuffix(r.1, s)
  {
    match sedes
    case Boolean =>
      var (b, rest) := RandomBool(s);
      (Success(VBool(b)), rest)
    case UInt(n) =>
      var (i, rest) := RandInt(0, Pow(8, n), s);
      (Success(VInt(i)), rest)
    case _ => (Failure("Neither bool nor UInt"), s)
  }

  /** Every value of DrawnBasic is the outcome of some single draw. */
  lemma RandomBasicValueCovers(sedes: Sedes, v: Value)
    requires DrawnBasic(v, sedes)
    ensures exists d: nat :: RandomBasicValue(sedes, [d]).0 == Success(v)
  {
    match sedes
    case Boolean =>
      var d: nat := if v.b then 0 else 1;
      assert RandomBasicValue(sedes, [d]).0 == Success(v);
    case UInt(n) =>
      var d: nat := v.i;
      RandIntReachesEveryValue(0, Pow(8, n), d);
      assert RandomBasicValue(sedes, [d]).0 == Success(v);
  }

  /** Every drawn basic value of a UInt at least one byte wide is in range. */
  lemma DrawnBasicConforms(v: Value, sedes: Sedes)
    requires WellFormed(sedes)
    requires DrawnBasic(v, sedes)
    ensures Conforms(v, sedes)
  {
    if sedes.UInt? {
      EightPowFitsUInt(sedes.size);
    }
  }

  /** An element schema of the flat generators: Boolean or a UInt of one
      of the UINT_SIZES widths. */
  predicate FlatElement(e: Sedes) {
    e.IsBasic() && AllLeavesBasic(e)
  }

  /** The flat element schemas are exactly the entries of BASIC_SEDES. */
  lemma FlatElementIsBasicSedes(e: Sedes)
    ensures FlatElement(e) <==> e in BASIC_SEDES
  {
    if FlatElement(e) && e.UInt? {
      assert e.size in {1, 2, 4, 8, 16, 32};
      if e.size == 1 { assert e == BASIC_SEDES[1]; }
      else if e.size == 2 { assert e == BASIC_SEDES[2]; }
      else if e.size == 4 { assert e == BASIC_SEDES[3]; }
      else if e.size == 8 { assert e == BASIC_SEDES[4]; }
      else if e.size == 16 { assert e == BASIC_SEDES[5]; }
      else { assert e == BASIC_SEDES[6]; }
    }
  }

  lemma FlatElementAt(i: nat)
    requires i < |BASIC_SEDES|
    ensures FlatElement(BASIC_SEDES[i])
  {
    FlatElementIsBasicSedes(BASIC_SEDES[i]);
  }

  /** Every entry of BASIC_SEDES is a flat element. */
  lemma BasicSedesFlat()
    ensures forall k :: 0 <= k < |BASIC_SEDES| ==> FlatElement(BASIC_SEDES[k])
  {
    forall k | 0 <= k < |BASIC_SEDES| ensures FlatElement(BASIC_SEDES[k]) {
      FlatElementAt(k);
    }
  }

  /** A flat element is at least one and at most 32 bytes wide, and its
      width divides 256. */
  lemma FlatElementWidth(e: Sedes)
    requires FlatElement(e)
    ensures WellFormed(e)
    ensures 1 <= ByteSize(e) <= 32 && 256 % ByteSize(e) == 0
  {
  }

  /** `count` values of one basic schema, drawn in order. */
  function RandomBasicValues(e: Sedes, count: nat, s: Stream): (r: (seq<Value>, Stream))
    requires e.IsBasic()
    ensures |r.0| == count
    ensures forall k :: 0 <= k < count ==> DrawnBasic(r.0[k], e)
    ensures IsSuffix(r.1, s)
    decreases count
  {
    if count == 0 then ([], s)
    else
      var (v, t) := RandomBasicValue(e, s);
      var (vs, rest) := RandomBasicValues(e, count - 1, t);
      SuffixTransitive(rest, t, s);
      ([v.value] + vs, rest)
  }

  /** `count` draws of `random.randint(0, max)`. */
  function RandomLengths(count: nat, max: nat, s: Stream): (r: (seq<nat>, Stream))
    ensures |r.0| == count
    ensures forall k :: 0 <= k < count ==> r.0[k] <= max
    ensures IsSuffix(r.1, s)
    decreases count
  {
    if count == 0 then ([], s)
    else
      var (n, t) := RandInt(0, max, s);
      var (ns, rest) := RandomLengths(count - 1, max, t);
      SuffixTransitive(rest, t, s);
      ([n] + ns, rest)
  }

  /** A sequence value of drawn basic values of one schema. */
  predicate DrawnItems(v: Value, e: Sedes) {
    v.VSeq? && forall j :: 0 <= j < |v.items| ==> DrawnBasic(v.items[j], e)
  }

  /** The number of items of a case's sequence value. */
  function ItemCount(c: CaseArgs): nat {
    if c.value.Some? && c.value.value.VSeq? then |c.value.value.items| else 0
  }

  /** Drawn basic values of a UInt at least one byte wide are accepted by
      the codec as a List or Vector of that element. */
  lemma DrawnItemsConform(items: seq<Value>, e: Sedes)
    requires FlatElement(e)
    requires forall j :: 0 <= j < |items| ==> DrawnBasic(items[j], e)
    ensures Conforms(VSeq(items), List(e))
    ensures Conforms(VSeq(items), Vector(e, |items|))
  {
    FlatElementWidth(e);
    forall j | 0 <= j < |items| ensures Conforms(items[j], e) {
      DrawnBasicConforms(items[j], e);
    }
  }

  // ---------------------------------------------------------------------
  // Lists

  /** The fixed list lengths: empty, one element, and one element short of
      and exactly at 256 bytes of elements. */
  function FixedListLengths(e: Sedes): (r: seq<nat>)
    requires FlatElement(e)
    ensures |r| == 4 && r[0] == 0 && r[1] == 1
  {
    FlatElementWidth(e);
    [0, 1, 256 / ByteSize(e) - 1, 256 / ByteSize(e)]
  }

  /** The third and fourth fixed lengths straddle the 256-byte boundary. */
  lemma FixedListLengthsStraddle(e: Sedes)
    requires FlatElement(e)
    ensures FixedListLengths(e)[3] * ByteSize(e) == 256
    ensures FixedListLengths(e)[2] * ByteSize(e) < 256
    ensures FixedListLengths(e)[2] + 1 == FixedListLengths(e)[3]
  {
    FlatElementWidth(e);
  }

  /** One flat list case: `length` values of the element schema. */
  method ListCase(enc: (Value, Sedes) -> Bytes, e: Sedes, length: nat, s: Stream)
    returns (c: CaseArgs, rest: Stream)
    requires FlatElement(e)
    ensures ValidCase(c, enc, LIST_TAGS) && c.sedes == List(e)
    ensures c.value.Some? && DrawnItems(c.value.value, e) && ItemCount(c) == length
    ensures IsSuffix(rest, s)
  {
    FlatElementWidth(e);
    var items;
    items, rest := RandomBasicValues(e, length, s).0, RandomBasicValues(e, length, s).1;
    DrawnItemsConform(items, e);
    var value := VSeq(items);
    c := CaseArgs(List(e), true, Some(value), Some(enc(value, List(e))), None, Some(LIST_TAGS));
  }

  /** A valid list case of the element schema `e` whose value is drawn
      element by element. */
  predicate ListCaseOf(c: CaseArgs, enc: (Value, Sedes) -> Bytes, e: Sedes) {
    && ValidCase(c, enc, LIST_TAGS) && c.sedes == List(e)
    && c.value.Some? && DrawnItems(c.value.value, e)
  }

  /** One list case per entry of `lengths`, in order, with that many
      elements. */
  method ListCasesForLengths(enc: (Value, Sedes) -> Bytes, e: Sedes, lengths: seq<nat>, s: Stream)
    returns (cases: seq<CaseArgs>, rest: Stream)
    requires FlatElement(e)
    ensures |cases| == |lengths|
    ensures forall k :: 0 <= k < |cases| ==> ListCaseOf(cases[k], enc, e) && ItemCount(cases[k]) == lengths[k]
    ensures IsSuffix(rest, s)
  {
    cases, rest := [], s;
    for i := 0 to |lengths|
      invariant |cases| == i
      invariant forall k :: 0 <= k < i ==> ListCaseOf(cases[k], enc, e) && ItemCount(cases[k]) == lengths[k]
      invariant IsSuffix(rest, s)
    {
      var c, next := ListCase(enc, e, lengths[i], rest);
      SuffixTransitive(next, rest, s);
      AppendIndex(cases, c);
      cases, rest := cases + [c], next;
    }
  }

  /** The fixed lengths come first, the drawn ones after them. */
  lemma ListLengthsShape(fixed: seq<nat>, drawn: seq<nat>, cs: seq<CaseArgs>)
    requires forall k :: 0 <= k < |drawn| ==> drawn[k] <= MAX_RANDOM_LIST_LENGTH
    requires |cs| == |fixed| + |drawn|
    requires forall k :: 0 <= k < |cs| ==> ItemCount(cs[k]) == (fixed + drawn)[k]
    ensures forall k :: 0 <= k < |fixed| ==> ItemCount(cs[k]) == fixed[k]
    ensures forall k :: |fixed| <= k < |cs| ==> ItemCount(cs[k]) <= MAX_RANDOM_LIST_LENGTH
  {
    forall k | |fixed| <= k < |cs| ensures ItemCount(cs[k]) <= MAX_RANDOM_LIST_LENGTH {
      assert (fixed + drawn)[k] == drawn[k - |fixed|];
    }
  }

  /** The 20 list cases of one element schema: the fixed lengths, then
      NUM_RANDOM_LENGTHS random ones, all lengths drawn before any value. */
  method ListCasesFor(enc: (Value, Sedes) -> Bytes, e: Sedes, s: Stream)
    returns (cases: seq<CaseArgs>, rest: Stream)
    requires FlatElement(e)
    ensures |cases| == 4 + NUM_RANDOM_LENGTHS
    ensures forall k :: 0 <= k < |cases| ==> ListCaseOf(cases[k], enc, e)
    ensures forall k :: 0 <= k < 4 ==> ItemCount(cases[k]) == FixedListLengths(e)[k]
    ensures forall k :: 4 <= k < |cases| ==> ItemCount(cases[k]) <= MAX_RANDOM_LIST_LENGTH
    ensures IsSuffix(rest, s)
  {
    var drawn := RandomLengths(NUM_RANDOM_LENGTHS, MAX_RANDOM_LIST_LENGTH, s);
    var fixed := FixedListLengths(e);
    cases, rest := ListCasesForLengths(enc, e, fixed + drawn.0, drawn.1);
    SuffixTransitive(rest, drawn.1, s);
    ListLengthsShape(fixed, drawn.0, cases);
  }

  /** The 20 list cases of one element schema. */
  predicate ListBlockOf(b: seq<CaseArgs>, enc: (Value, Sedes) -> Bytes, e: Sedes) {
    |b| == 4 + NUM_RANDOM_LENGTHS && forall m :: 0 <= m < |b| ==> ListCaseOf(b[m], enc, e)
  }

  /** generate_flat_list_test_cases over the element schemas `es`: one
      block of 20 cases per element schema, in order. */
  method ListBlocks(enc: (Value, Sedes) -> Bytes, es: seq<Sedes>, s: Stream)
    returns (blocks: seq<seq<CaseArgs>>, rest: Stream)
    requires forall k :: 0 <= k < |es| ==> FlatElement(es[k])
    ensures |blocks| == |es|
    ensures forall j :: 0 <= j < |blocks| ==> |blocks[j]| == 4 + NUM_RANDOM_LENGTHS
    ensures forall j, m :: 0 <= j < |blocks| && 0 <= m < |blocks[j]| ==> ListCaseOf(blocks[j][m], enc, es[j])
    ensures IsSuffix(rest, s)
  {
    blocks, rest := [], s;
    for i := 0 to |es|
      invariant |blocks| == i
      invariant forall j :: 0 <= j < i ==> ListBlockOf(blocks[j], enc, es[j])
      invariant IsSuffix(rest, s)
    {
      var block, next := ListCasesFor(enc, es[i], rest);
      SuffixTransitive(next, rest, s);
      assert ListBlockOf(block, enc, es[i]);
      AppendIndex(blocks, block);
      blocks, rest := blocks + [block], next;
    }
    assert forall j :: 0 <= j < |blocks| ==> ListBlockOf(blocks[j], enc, es[j]);
  }

  // ---------------------------------------------------------------------
  // Containers

  /** "field" followed by the decimal index. */
  function FieldName(k: nat): (r: string)
    ensures |r| > 5 && r[..5] == "field"
  {
    "field" + NatToDecimal(k)
  }

  /** The index a field name carries, if it is one. */
  function FieldIndex(name: string): Option<nat> {
    if |name| >= 5 && name[..5] == "field" then ParseNat(name[5..]) else None
  }

  lemma FieldNameRoundTrip(k: nat)
    ensures FieldIndex(FieldName(k)) == Some(k)
  {
    assert FieldName(k)[5..] == NatToDecimal(k);
    NatToDecimalRoundTrip(k);
  }

  /** field0 ... field{n-1}. */
  function FieldNames(n: nat): (r: seq<string>)
    ensures |r| == n
    ensures forall k :: 0 <= k < n ==> r[k] == FieldName(k)
  {
    if n == 0 then [] else FieldNames(n - 1) + [FieldName(n - 1)]
  }

  /** Field k is named for index k, so the names are pairwise distinct. */
  lemma FieldNamesDistinct(n: nat)
    ensures forall k :: 0 <= k < n ==> FieldIndex(FieldNames(n)[k]) == Some(k)
    ensures NoDuplicates(FieldNames(n))
  {
    var names := FieldNames(n);
    forall k | 0 <= k < n ensures FieldIndex(names[k]) == Some(k) {
      FieldNameRoundTrip(k);
    }
  }

  /** A mapping value keyed by `names`, each value drawn from its own
      field's schema, in field order. */
  function RandomFieldMap(names: seq<string>, fs: seq<Sedes>, s: Stream): (r: (seq<Field>, Stream))
    requires |names| == |fs|
    requires forall k :: 0 <= k < |fs| ==> FlatElement(fs[k])
    ensures |r.0| == |fs|
    ensures forall k :: 0 <= k < |fs| ==> r.0[k].name == names[k] && DrawnBasic(r.0[k].value, fs[k])
    ensures IsSuffix(r.1, s)
    decreases |fs|
  {
    if |fs| == 0 then ([], s)
    else
      FlatElementWidth(fs[0]);
      var (v, t) := RandomBasicValue(fs[0], s);
      var (more, rest) := RandomFieldMap(names[1..], fs[1..], t);
      SuffixTransitive(rest, t, s);
      ([Field(names[0], v.value)] + more, rest)
  }

  /** Names lists the keys of a mapping value in order. */
  lemma {:induction false} NamesOf(fields: seq<Field>)
    ensures |Names(fields)| == |fields|
    ensures forall k :: 0 <= k < |fields| ==> Names(fields)[k] == fields[k].name
  {
    if |fields| > 0 {
      NamesOf(fields[1..]);
    }
  }

  /** A mapping value whose keys are field0 ... field{n-1}, in order, and
      whose k-th value is drawn from the k-th field schema. */
  predicate DrawnFields(v: Value, fs: seq<Sedes>) {
    && v.VMap?
    && |v.fields| == |fs|
    && Names(v.fields) == FieldNames(|fs|)
    && forall k :: 0 <= k < |fs| ==> DrawnBasic(v.fields[k].value, fs[k])
  }

  /** Drawn fields under the names field0 ... are a mapping value the codec
      accepts for the Container of those field schemas. */
  lemma FlatContainerConforms(fs: seq<Sedes>, fields: seq<Field>)
    requires forall k :: 0 <= k < |fs| ==> FlatElement(fs[k])
    requires |fields| == |fs|
    requires forall k :: 0 <= k < |fs| ==> fields[k].name == FieldNames(|fs|)[k] && DrawnBasic(fields[k].value, fs[k])
    ensures Names(fields) == FieldNames(|fs|)
    ensures Conforms(VMap(fields), Container(fs))
  {
    NamesOf(fields);
    FieldNamesDistinct(|fs|);
    forall k | 0 <= k < |fs| ensures Conforms(fields[k].value, fs[k]) {
      FlatElementWidth(fs[k]);
      DrawnBasicConforms(fields[k].value, fs[k]);
    }
  }

  /** One flat container case for the field schemas `fs`: fields named
      field0 ... and one value drawn per field. */
  method ContainerCase(enc: (Value, Sedes) -> Bytes, fs: seq<Sedes>, tags: seq<string>, s: Stream)
    returns (c: CaseArgs, rest: Stream)
    requires forall k :: 0 <= k < |fs| ==> FlatElement(fs[k])
    ensures ValidCase(c, enc, tags) && c.sedes == Container(fs)
    ensures c.value.Some? && DrawnFields(c.value.value, fs)
    ensures IsSuffix(rest, s)
  {
    var drawn := RandomFieldMap(FieldNames(|fs|), fs, s);
    FlatContainerConforms(fs, drawn.0);
    var value := VMap(drawn.0);
    c := CaseArgs(Container(fs), true, Some(value), Some(enc(value, Container(fs))), None, Some(tags));
    rest := drawn.1;
  }

  /** `n` copies of one schema. */
  function Repeat(e: Sedes, n: nat): (r: seq<Sedes>)
    ensures |r| == n && forall k :: 0 <= k < n ==> r[k] == e
  {
    seq(n, _ => e)
  }

  /** The field schemas of a case's Container schema. */
  function FieldsOf(c: CaseArgs): seq<Sedes> {
    if c.sedes.Container? then c.sedes.fields else []
  }

  /** The number of fields of a case's Container schema. */
  function FieldCount(c: CaseArgs): nat {
    |FieldsOf(c)|
  }

  /** The case's schema is a Container whose every field is `e`. */
  predicate AllFieldsAre(c: CaseArgs, e: Sedes) {
    c.sedes.Container? && forall f :: 0 <= f < |c.sedes.fields| ==> c.sedes.fields[f] == e
  }

  /** A homogeneous case with `length` fields of schema `e`. */
  predicate HomogenousCaseOf(c: CaseArgs, enc: (Value, Sedes) -> Bytes, e: Sedes, length: nat) {
    && ValidCase(c, enc, HOMOGENOUS_TAGS) && c.sedes == Container(Repeat(e, length))
    && c.value.Some? && DrawnFields(c.value.value, Repeat(e, length))
  }

  /** The homogeneous cases for the field counts `lengths`, in order. */
  method HomogenousCasesForLengths(enc: (Value, Sedes) -> Bytes, e: Sedes, lengths: seq<nat>, s: Stream)
    returns (cases: seq<CaseArgs>, rest: Stream)
    requires FlatElement(e)
    ensures |cases| == |lengths|
    ensures forall k :: 0 <= k < |cases| ==> HomogenousCaseOf(cases[k], enc, e, lengths[k])
    ensures IsSuffix(rest, s)
  {
    cases, rest := [], s;
    for i := 0 to |lengths|
      invariant |cases| == i
      invariant forall k :: 0 <= k < i ==> HomogenousCaseOf(cases[k], enc, e, lengths[k])
      invariant IsSuffix(rest, s)
    {
      var c, next := ContainerCase(enc, Repeat(e, lengths[i]), HOMOGENOUS_TAGS, rest);
      SuffixTransitive(next, rest, s);
      assert HomogenousCaseOf(c, enc, e, lengths[i]);
      AppendIndex(cases, c);
      cases, rest := cases + [c], next;
    }
  }

  /** Homogeneous cases built for `lengths` have those many fields, all of
      the one schema, and a value drawn field by field. */
  lemma HomogenousCasesShape(enc: (Value, Sedes) -> Bytes, e: Sedes, lengths: seq<nat>, cs: seq<CaseArgs>)
    requires |cs| == |lengths|
    requires forall k :: 0 <= k < |cs| ==> HomogenousCaseOf(cs[k], enc, e, lengths[k])
    ensures forall k :: 0 <= k < |cs| ==>
              && ValidCase(cs[k], enc, HOMOGENOUS_TAGS) && AllFieldsAre(cs[k], e)
              && cs[k].value.Some? && DrawnFields(cs[k].value.value, FieldsOf(cs[k]))
    ensures forall k :: 0 <= k < |cs| ==> FieldCount(cs[k]) == lengths[k]
  {
    forall k | 0 <= k < |cs|
      ensures && ValidCase(cs[k], enc, HOMOGENOUS_TAGS) && AllFieldsAre(cs[k], e)
              && cs[k].value.Some? && DrawnFields(cs[k].value.value, FieldsOf(cs[k]))
              && FieldCount(cs[k]) == lengths[k]
    {
      HomogenousCaseShape(cs[k], enc, e, lengths[k]);
    }
  }

  /** A homogeneous case with `length` fields of schema `e` has exactly
      those fields, and its value is drawn field by field. */
  lemma HomogenousCaseShape(c: CaseArgs, enc: (Value, Sedes) -> Bytes, e: Sedes, length: nat)
    requires HomogenousCaseOf(c, enc, e, length)
    ensures ValidCase(c, enc, HOMOGENOUS_TAGS) && AllFieldsAre(c, e)
    ensures c.value.Some? && DrawnFields(c.value.value, FieldsOf(c))
    ensures FieldCount(c) == length
  {
  }

  /** Cases with 0 and 1 fields followed by one per random field count of
      at most MAX_RANDOM_CONTAINER_LENGTH: the first two have 0 and 1
      fields, the rest at most MAX_RANDOM_CONTAINER_LENGTH. */
  lemma HomogenousLengthsShape(randomLengths: seq<nat>, cs: seq<CaseArgs>)
    requires forall k :: 0 <= k < |randomLengths| ==> randomLengths[k] <= MAX_RANDOM_CONTAINER_LENGTH
    requires |cs| == 2 + |randomLengths|
    requires forall k :: 0 <= k < |cs| ==> FieldCount(cs[k]) == ([0, 1] + randomLengths)[k]
    ensures FieldCount(cs[0]) == 0 && FieldCount(cs[1]) == 1
    ensures forall k :: 2 <= k < |cs| ==> FieldCount(cs[k]) <= MAX_RANDOM_CONTAINER_LENGTH
  {
    forall k | 2 <= k < |cs| ensures FieldCount(cs[k]) <= MAX_RANDOM_CONTAINER_LENGTH {
      assert ([0, 1] + randomLengths)[k] == randomLengths[k - 2];
    }
  }

  /** The 18 homogeneous container cases of one field schema: 0 and 1
      fields, then NUM_RANDOM_LENGTHS random field counts. */
  method HomogenousCasesFor(enc: (Value, Sedes) -> Bytes, e: Sedes, s: Stream)
    returns (cases: seq<CaseArgs>, rest: Stream)
    requires FlatElement(e)
    ensures |cases| == 2 + NUM_RANDOM_LENGTHS
    ensures forall k :: 0 <= k < |cases| ==>
              && ValidCase(cases[k], enc, HOMOGENOUS_TAGS) && AllFieldsAre(cases[k], e)
              && cases[k].value.Some? && DrawnFields(cases[k].value.value, FieldsOf(cases[k]))
    ensures FieldCount(cases[0]) == 0 && FieldCount(cases[1]) == 1
    ensures forall k :: 2 <= k < |cases| ==> FieldCount(cases[k]) <= MAX_RANDOM_CONTAINER_LENGTH
    ensures IsSuffix(rest, s)
  {
    var drawn := RandomLengths(NUM_RANDOM_LENGTHS, MAX_RANDOM_CONTAINER_LENGTH, s);
    var lengths := [0, 1] + drawn.0;
    cases, rest := HomogenousCasesForLengths(enc, e, lengths, drawn.1);
    SuffixTransitive(rest, drawn.1, s);
    HomogenousCasesShape(enc, e, lengths, cases);
    HomogenousLengthsShape(drawn.0, cases);
  }

  /** The 18 homogeneous cases of one field schema. */
  predicate HomogenousBlockOf(b: seq<CaseArgs>, enc: (Value, Sedes) -> Bytes, e: Sedes) {
    && |b| == 2 + NUM_RANDOM_LENGTHS
    && forall m :: 0 <= m < |b| ==> ValidCase(b[m], enc, HOMOGENOUS_TAGS) && AllFieldsAre(b[m], e)
  }

  /** generate_flat_homogenous_container_test_cases over the field schemas
      `es`: one block of 18 cases per field schema, in order. */
  method HomogenousBlocks(enc: (Value, Sedes) -> Bytes, es: seq<Sedes>, s: Stream)
    returns (blocks: seq<seq<CaseArgs>>, rest: Stream)
    requires forall k :: 0 <= k < |es| ==> FlatElement(es[k])
    ensures |blocks| == |es|
    ensures forall j :: 0 <= j < |blocks| ==> |blocks[j]| == 2 + NUM_RANDOM_LENGTHS
    ensures forall j, m :: 0 <= j < |blocks| && 0 <= m < |blocks[j]| ==>
              ValidCase(blocks[j][m], enc, HOMOGENOUS_TAGS) && AllFieldsAre(blocks[j][m], es[j])
    ensures IsSuffix(rest, s)
  {
    blocks, rest := [], s;
    for i := 0 to |es|
      invariant |blocks| == i
      invariant forall j :: 0 <= j < i ==> HomogenousBlockOf(blocks[j], enc, es[j])
      invariant IsSuffix(rest, s)
    {
      var block, next := HomogenousCasesFor(enc, es[i], rest);
      SuffixTransitive(next, rest, s);
      assert HomogenousBlockOf(block, enc, es[i]);
      AppendIndex(blocks, block);
      blocks, rest := blocks + [block], next;
    }
    assert forall j :: 0 <= j < |blocks| ==> HomogenousBlockOf(blocks[j], enc, es[j]);
  }

  /** `n` draws of `random.choice` over the basic schemas. */
  function RandomFieldSedes(n: nat, s: Stream): (r: (seq<Sedes>, Stream))
    ensures |r.0| == n
    ensures forall k :: 0 <= k < n ==> FlatElement(r.0[k])
    ensures IsSuffix(r.1, s)
    decreases n
  {
    if n == 0 then ([], s)
    else
      var (e, t) := Choice(BASIC_SEDES, s);
      FlatElementIsBasicSedes(e);
      var (es, rest) := RandomFieldSedes(n - 1, t);
      SuffixTransitive(rest, t, s);
      ([e] + es, rest)
  }

  /** The case's schema is a Container of flat element schemas. */
  predicate FlatFields(c: CaseArgs) {
    c.sedes.Container? && forall f :: 0 <= f < |c.sedes.fields| ==> FlatElement(c.sedes.fields[f])
  }

  /** One heterogeneous case with `n` fields: the field schemas are drawn
      first, then one value per field from that field's own schema. */
  method HeterogenousCase(enc: (Value, Sedes) -> Bytes, n: nat, s: Stream)
    returns (c: CaseArgs, rest: Stream)
    ensures ValidCase(c, enc, HETEROGENOUS_TAGS) && FlatFields(c) && FieldCount(c) == n
    ensures c.value.Some? && DrawnFields(c.value.value, FieldsOf(c))
    ensures IsSuffix(rest, s)
  {
    var drawn := RandomFieldSedes(n, s);
    c, rest := ContainerCase(enc, drawn.0, HETEROGENOUS_TAGS, drawn.1);
    SuffixTransitive(rest, drawn.1, s);
  }

  /** A heterogeneous case: valid, a Container of at most
      MAX_RANDOM_CONTAINER_LENGTH flat fields, its value drawn field by
      field. */
  predicate HeterogenousCaseOk(c: CaseArgs, enc: (Value, Sedes) -> Bytes) {
    && ValidCase(c, enc, HETEROGENOUS_TAGS) && FlatFields(c)
    && FieldCount(c) <= MAX_RANDOM_CONTAINER_LENGTH
    && c.value.Some? && DrawnFields(c.value.value, FieldsOf(c))
  }

  /** A heterogeneous case with exactly `n` fields. */
  predicate HeterogenousCaseOf(c: CaseArgs, enc: (Value, Sedes) -> Bytes, n: nat) {
    HeterogenousCaseOk(c, enc) && FieldCount(c) == n
  }

  /** One heterogeneous case per entry of `lengths`, in order. */
  method HeterogenousCasesForLengths(enc: (Value, Sedes) -> Bytes, lengths: seq<nat>, s: Stream)
    returns (cases: seq<CaseArgs>, rest: Stream)
    requires forall k :: 0 <= k < |lengths| ==> lengths[k] <= MAX_RANDOM_CONTAINER_LENGTH
    ensures |cases| == |lengths|
    ensures forall k :: 0 <= k < |cases| ==> HeterogenousCaseOk(cases[k], enc)
    ensures forall k :: 0 <= k < |cases| ==> FieldCount(cases[k]) == lengths[k]
    ensures IsSuffix(rest, s)
  {
    cases, rest := [], s;
    for i := 0 to |lengths|
      invariant |cases| == i
      invariant forall k :: 0 <= k < i ==> HeterogenousCaseOf(cases[k], enc, lengths[k])
      invariant IsSuffix(rest, s)
    {
      var c, next := HeterogenousCase(enc, lengths[i], rest);
      SuffixTransitive(next, rest, s);
      assert HeterogenousCaseOf(c, enc, lengths[i]);
      AppendIndex(cases, c);
      cases, rest := cases + [c], next;
    }
  }

  /** generate_flat_heterogenous_container_test_cases: NUM_RANDOM_LENGTHS
      field counts are drawn up front, then one case per count. */
  method HeterogenousCases(enc: (Value, Sedes) -> Bytes, s: Stream)
    returns (cases: seq<CaseArgs>, rest: Stream)
    ensures |cases| == NUM_RANDOM_LENGTHS
    ensures forall k :: 0 <= k < |cases| ==> HeterogenousCaseOk(cases[k], enc)
    ensures forall k :: 0 <= k < |cases| ==>
              FieldCount(cases[k]) == RandomLengths(NUM_RANDOM_LENGTHS, MAX_RANDOM_CONTAINER_LENGTH, s).0[k]
    ensures IsSuffix(rest, s)
  {
    var drawn := RandomLengths(NUM_RANDOM_LENGTHS, MAX_RANDOM_CONTAINER_LENGTH, s);
    cases, rest := HeterogenousCasesForLengths(enc, drawn.0, drawn.1);
    SuffixTransitive(rest, drawn.1, s);
  }

  // ---------------------------------------------------------------------
  // Vectors

  /** A positional argument of the Vector constructor. */
  datatype VectorArg = SchemaArg(sedes: Sedes) | LengthArg(n: nat)

  /** py-ssz's `Vector(element_sedes, length)`: a schema first, a length
      second; any other pair of arguments does not make a Vector, and the
      case that asked for it raises before it is rendered. */
  function MakeVector(elementSedes: VectorArg, length: VectorArg): (r: Result<Sedes>)
    ensures r.Success? <==> elementSedes.SchemaArg? && length.LengthArg?
    ensures r.Success? ==> r.value.Vector? && r.value.element == elementSedes.sedes
                           && r.value.length == length.n
  {
    if elementSedes.SchemaArg? && length.LengthArg? then Success(Vector(elementSedes.sedes, length.n))
    else Failure("Vector expects an element schema and then a length")
  }

  /** One flat vector case, its schema built by `Vector(e, length)`. */
  method VectorCase(enc: (Value, Sedes) -> Bytes, e: Sedes, length: nat, s: Stream)
    returns (r: Result<CaseArgs>, rest: Stream)
    requires FlatElement(e)
    ensures r.Success?
    ensures ValidCase(r.value, enc, VECTOR_TAGS) && r.value.sedes == Vector(e, length)
    ensures r.value.value.Some? && DrawnItems(r.value.value.value, e) && ItemCount(r.value) == length
    ensures IsSuffix(rest, s)
  {
    var sedes := MakeVector(SchemaArg(e), LengthArg(length));
    FlatElementWidth(e);
    var drawn := RandomBasicValues(e, length, s);
    DrawnItemsConform(drawn.0, e);
    var value := VSeq(drawn.0);
    r := Success(CaseArgs(sedes.value, true, Some(value), Some(enc(value, sedes.value)), None, Some(VECTOR_TAGS)));
    rest := drawn.1;
  }

  /** The vector case as line 130 writes it, `Vector(length, e)`. The
      outcome rests on MakeVector's reading of py-ssz's constructor, which
      rejects a length in the schema position: under that reading the
      swapped call fails for every length and element schema, and so the
      case raises before any value is drawn. */
  method VectorCaseAsWritten(enc: (Value, Sedes) -> Bytes, e: Sedes, length: nat, s: Stream)
    returns (r: Result<CaseArgs>, rest: Stream)
    requires FlatElement(e)
    ensures MakeVector(LengthArg(length), SchemaArg(e)).Failure?
    ensures r.Failure? && rest == s
  {
    var sedes := MakeVector(LengthArg(length), SchemaArg(e));
    assert sedes.Failure?;
    r, rest := Failure(sedes.error), s;
  }

  /** A vector case for a given element schema and length. */
  predicate VectorCaseOf(c: CaseArgs, enc: (Value, Sedes) -> Bytes, e: Sedes, length: nat) {
    && ValidCase(c, enc, VECTOR_TAGS) && c.sedes == Vector(e, length)
    && c.value.Some? && DrawnItems(c.value.value, e)
  }

  /** The vector cases for `lengths`, in order. */
  method VectorCasesForLengths(enc: (Value, Sedes) -> Bytes, e: Sedes, lengths: seq<nat>, s: Stream)
    returns (cases: seq<CaseArgs>, rest: Stream)
    requires FlatElement(e)
    ensures |cases| == |lengths|
    ensures forall k :: 0 <= k < |cases| ==> VectorCaseOf(cases[k], enc, e, lengths[k])
    ensures IsSuffix(rest, s)
  {
    cases, rest := [], s;
    for i := 0 to |lengths|
      invariant |cases| == i
      invariant forall k :: 0 <= k < i ==> VectorCaseOf(cases[k], enc, e, lengths[k])
      invariant IsSuffix(rest, s)
    {
      var c, next := VectorCase(enc, e, lengths[i], rest);
      SuffixTransitive(next, rest, s);
      AppendIndex(cases, c.value);
      cases, rest := cases + [c.value], next;
    }
  }

  /** The vector cases built for lengths 0 and 1 followed by random
      lengths are Vectors of those lengths. */
  lemma VectorLengthsShape(enc: (Value, Sedes) -> Bytes, e: Sedes, randomLengths: seq<nat>, cs: seq<CaseArgs>)
    requires forall k :: 0 <= k < |randomLengths| ==> randomLengths[k] <= MAX_RANDOM_VECTOR_LENGTH
    requires |cs| == 2 + |randomLengths|
    requires forall k :: 0 <= k < |cs| ==> VectorCaseOf(cs[k], enc, e, ([0, 1] + randomLengths)[k])
    ensures forall k :: 0 <= k < |cs| ==>
              && ValidCase(cs[k], enc, VECTOR_TAGS)
              && cs[k].sedes.Vector? && cs[k].sedes.element == e
              && cs[k].value.Some? && DrawnItems(cs[k].value.value, e)
    ensures cs[0].sedes.length == 0 && cs[1].sedes.length == 1
    ensures forall k :: 2 <= k < |cs| ==> cs[k].sedes.length <= MAX_RANDOM_VECTOR_LENGTH
  {
    forall k | 2 <= k < |cs| ensures cs[k].sedes.length <= MAX_RANDOM_VECTOR_LENGTH {
      assert ([0, 1] + randomLengths)[k] == randomLengths[k - 2];
    }
  }

  /** The 18 vector cases of one element schema: lengths 0 and 1, then
      NUM_RANDOM_LENGTHS random lengths. */
  method VectorCasesFor(enc: (Value, Sedes) -> Bytes, e: Sedes, s: Stream)
    returns (cases: seq<CaseArgs>, rest: Stream)
    requires FlatElement(e)
    ensures |cases| == 2 + NUM_RANDOM_LENGTHS
    ensures forall k :: 0 <= k < |cases| ==>
              && ValidCase(cases[k], enc, VECTOR_TAGS)
              && cases[k].sedes.Vector? && cases[k].sedes.element == e
              && cases[k].value.Some? && DrawnItems(cases[k].value.value, e)
    ensures cases[0].sedes.length == 0 && cases[1].sedes.length == 1
    ensures forall k :: 2 <= k < |cases| ==> cases[k].sedes.length <= MAX_RANDOM_VECTOR_LENGTH
    ensures IsSuffix(rest, s)
  {
    var drawn := RandomLengths(NUM_RANDOM_LENGTHS, MAX_RANDOM_VECTOR_LENGTH, s);
    var lengths := [0, 1] + drawn.0;
    cases, rest := VectorCasesForLengths(enc, e, lengths, drawn.1);
    SuffixTransitive(rest, drawn.1, s);
    VectorLengthsShape(enc, e, drawn.0, cases);
  }

  /** The 18 vector cases of one element schema. */
  predicate VectorBlockOf(b: seq<CaseArgs>, enc: (Value, Sedes) -> Bytes, e: Sedes) {
    && |b| == 2 + NUM_RANDOM_LENGTHS
    && forall m :: 0 <= m < |b| ==>
         ValidCase(b[m], enc, VECTOR_TAGS) && b[m].sedes.Vector? && b[m].sedes.element == e
  }

  /** generate_flat_vector_test_cases over the element schemas `es`: one
      block of 18 cases per element schema, in order. */
  method VectorBlocks(enc: (Value, Sedes) -> Bytes, es: seq<Sedes>, s: Stream)
    returns (blocks: seq<seq<CaseArgs>>, rest: Stream)
    requires forall k :: 0 <= k < |es| ==> FlatElement(es[k])
    ensures |blocks| == |es|
    ensures forall j :: 0 <= j < |blocks| ==> |blocks[j]| == 2 + NUM_RANDOM_LENGTHS
    ensures forall j, m :: 0 <= j < |blocks| && 0 <= m < |blocks[j]| ==>
              && ValidCase(blocks[j][m], enc, VECTOR_TAGS)
              && blocks[j][m].sedes.Vector? && blocks[j][m].sedes.element == es[j]
    ensures IsSuffix(rest, s)
  {
    blocks, rest := [], s;
    for i := 0 to |es|
      invariant |blocks| == i
      invariant forall j :: 0 <= j < i ==> VectorBlockOf(blocks[j], enc, es[j])
      invariant IsSuffix(rest, s)
    {
      var block, next := VectorCasesFor(enc, es[i], rest);
      SuffixTransitive(next, rest, s);
      assert VectorBlockOf(block, enc, es[i]);
      AppendIndex(blocks, block);
      blocks, rest := blocks + [block], next;
    }
    assert forall j :: 0 <= j < |blocks| ==> VectorBlockOf(blocks[j], enc, es[j]);
  }

  /** The vector cases as written: the lengths of the first element
      schema, Boolean, are drawn, then its first case, of length 0,
      already raises, so no case is produced. */
  method VectorCasesAsWritten(enc: (Value, Sedes) -> Bytes, s: Stream)
    returns (r: Result<seq<CaseArgs>>, rest: Stream)
    ensures r.Failure?
  {
    var drawn := RandomLengths(NUM_RANDOM_LENGTHS, MAX_RANDOM_VECTOR_LENGTH, s);
    FlatElementAt(0);
    var first, next := VectorCaseAsWritten(enc, BASIC_SEDES[0], 0, drawn.1);
    r, rest := Failure(first.error), next;
  }

  // ---------------------------------------------------------------------
  // Suites

  /** generate_flat_list_test: 7 element schemas x 20 lengths. */
  method FlatListSuite(enc: (Value, Sedes) -> Bytes, s: Stream) returns (r: Result<Doc>, rest: Stream)
    ensures r.Success? && CaseCount(r.value) == Some(140)
    ensures IsSuffix(rest, s)
  {
    BasicSedesFlat();
    var blocks;
    blocks, rest := ListBlocks(enc, BASIC_SEDES, s);
    var cases := Flatten(blocks);
    FlattenLength(blocks, 20);
    FlattenValid(blocks, enc, LIST_TAGS);
    ValidCasesAdmissible(cases, enc, LIST_TAGS);
    AdmissibleCasesRender("Flat List", "Tests for lists of basic types", "0.1", cases);
    r := RenderSuite("Flat List", "Tests for lists of basic types", "0.1", cases);
  }

  /** generate_flat_container_test: the homogeneous cases (7 field schemas
      x 18 field counts), then the 16 heterogeneous ones, drawn in that
      order. */
  method FlatContainerSuite(enc: (Value, Sedes) -> Bytes, s: Stream) returns (r: Result<Doc>, rest: Stream)
    ensures r.Success? && CaseCount(r.value) == Some(142)
    ensures forall k :: 0 <= k < 126 ==> CaseEntry(r.value, k, "tags") == Some(DTuple(RenderTags(Some(HOMOGENOUS_TAGS))))
    ensures forall k :: 126 <= k < 142 ==> CaseEntry(r.value, k, "tags") == Some(DTuple(RenderTags(Some(HETEROGENOUS_TAGS))))
    ensures IsSuffix(rest, s)
  {
    BasicSedesFlat();
    var blocks, mid := HomogenousBlocks(enc, BASIC_SEDES, s);
    var homogenous := Flatten(blocks);
    FlattenLength(blocks, 18);
    FlattenValid(blocks, enc, HOMOGENOUS_TAGS);
    var heterogenous;
    heterogenous, rest := HeterogenousCases(enc, mid);
    SuffixTransitive(rest, mid, s);
    ValidCasesAdmissible(homogenous, enc, HOMOGENOUS_TAGS);
    ValidCasesAdmissible(heterogenous, enc, HETEROGENOUS_TAGS);
    AdmissibleConcat(homogenous, heterogenous);
    var cases := homogenous + heterogenous;
    AdmissibleCasesRender("Flat Container", "Tests for containers consisting of only basic types", "0.1", cases);
    r := RenderSuite("Flat Container", "Tests for containers consisting of only basic types", "0.1", cases);
    ChainedSuiteTags("Flat Container", "Tests for containers consisting of only basic types", "0.1",
                     homogenous, heterogenous, HOMOGENOUS_TAGS, HETEROGENOUS_TAGS);
  }

  /** generate_flat_vector_test with the Vector arguments in order: 7
      element schemas x 18 lengths. */
  method FlatVectorSuite(enc: (Value, Sedes) -> Bytes, s: Stream) returns (r: Result<Doc>, rest: Stream)
    ensures r.Success? && CaseCount(r.value) == Some(126)
    ensures IsSuffix(rest, s)
  {
    BasicSedesFlat();
    var blocks;
    blocks, rest := VectorBlocks(enc, BASIC_SEDES, s);
    var cases := Flatten(blocks);
    FlattenLength(blocks, 18);
    FlattenValid(blocks, enc, VECTOR_TAGS);
    ValidCasesAdmissible(cases, enc, VECTOR_TAGS);
    AdmissibleCasesRender("Flat Vector", "Tests for vectors of basic types", "0.1", cases);
    r := RenderSuite("Flat Vector", "Tests for vectors of basic types", "0.1", cases);
  }

  /** generate_flat_vector_test as written: it raises instead of producing
      a suite. */
  method FlatVectorSuiteAsWritten(enc: (Value, Sedes) -> Bytes, s: Stream) returns (r: Result<Doc>, rest: Stream)
    ensures r.Failure?
  {
    var cases;
    cases, rest := VectorCasesAsWritten(enc, s);
    r := Failure(cases.error);
  }
}
