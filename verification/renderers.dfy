/** ssz/renderers.py: the type-descriptor and value renderers, the test-case
    record with its valid/invalid invariant, and the suite document.

    Each renderer comes with a reader (ReadValue, ReadType) that a consumer
    of the document would use; the lossless lemmas show that the rendering
    keeps every bit of information, which is what the renderer exists for. */
module Renderers {
  import opened Wrappers
  import opened Schema
  import opened Text

  /** A node of the document handed to the YAML writer: DList is a Python
      list, DTuple a tuple and DDict an insertion-ordered dict. */
  datatype Doc =
    | DBool(b: bool)
    | DInt(i: int)
    | DStr(s: string)
    | DList(items: seq<Doc>)
    | DTuple(items: seq<Doc>)
    | DDict(entries: seq<Entry>)

  /** One key/value pair of a dict. */
  datatype Entry = Entry(key: string, doc: Doc)

  /** A dict built by `to_dict` from a generator of key/value pairs. */
  type Record = seq<Entry>

  function Keys(rec: Record): (ks: seq<string>)
    ensures |ks| == |rec|
    ensures forall k :: 0 <= k < |rec| ==> ks[k] == rec[k].key
  {
    if |rec| == 0 then [] else [rec[0].key] + Keys(rec[1..])
  }

  /** `rec[key]`, or None when the key is missing. */
  function Lookup(rec: Record, key: string): Option<Doc> {
    if |rec| == 0 then None
    else if rec[0].key == key then Some(rec[0].doc)
    else Lookup(rec[1..], key)
  }

  // ---------------------------------------------------------------------
  // Values

  /** render_value: bools pass through, ints become decimal text, bytes
      become hex text, sequences become tuples and mappings become dicts
      with the same keys. */
  function RenderValue(v: Value): (r: Doc)
    ensures v.VBool? ==> r == DBool(v.b)
    ensures v.VInt? ==> r.DStr? && ParseInt(r.s) == Some(v.i)
    ensures v.VBytes? ==> r.DStr? && DecodeHex(r.s) == Some(v.bytes)
    ensures v.VSeq? ==> r.DTuple? && |r.items| == |v.items|
    ensures v.VMap? ==> r.DDict? && Keys(r.entries) == Names(v.fields)
    decreases v
  {
    match v
    case VBool(b) => DBool(b)
    case VInt(i) => IntToDecimalRoundTrip(i); DStr(IntToDecimal(i))
    case VBytes(bs) => EncodeHexRoundTrip(bs); DStr(EncodeHex(bs))
    case VSeq(items) => DTuple(RenderValues(items))
    case VMap(fields) => DDict(RenderFields(fields))
  }

  /** Element-wise rendering of a sequence, in order. */
  function RenderValues(vs: seq<Value>): (r: seq<Doc>)
    ensures |r| == |vs|
    ensures forall k :: 0 <= k < |vs| ==> r[k] == RenderValue(vs[k])
    decreases vs
  {
    if |vs| == 0 then [] else [RenderValue(vs[0])] + RenderValues(vs[1..])
  }

  /** render_dict_value: same keys in the same order, each value rendered. */
  function RenderFields(fs: seq<Field>): (r: Record)
    ensures |r| == |fs|
    ensures forall k :: 0 <= k < |fs| ==> r[k] == Entry(fs[k].name, RenderValue(fs[k].value))
    decreases fs
  {
    if |fs| == 0 then [] else [Entry(fs[0].name, RenderValue(fs[0].value))] + RenderFields(fs[1..])
  }

  /** The keys of a value mapping. */
  function Names(fs: seq<Field>): (ks: seq<string>)
    ensures |ks| == |fs|
    ensures forall k :: 0 <= k < |fs| ==> ks[k] == fs[k].name
  {
    if |fs| == 0 then [] else [fs[0].name] + Names(fs[1..])
  }

  /** What a consumer reads back from a rendered value: a string is hex
      bytes when it starts with "0x" and a decimal integer otherwise. */
  function ReadValue(d: Doc): Option<Value>
    decreases d
  {
    match d
    case DBool(b) => Some(VBool(b))
    case DStr(s) =>
      if |s| >= 2 && s[..2] == "0x" then
        (match DecodeHex(s)
         case Some(bs) => Some(VBytes(bs))
         case None => None)
      else
        (match ParseInt(s)
         case Some(i) => Some(VInt(i))
         case None => None)
    case DTuple(items) =>
      (match ReadValues(items)
       case Some(vs) => Some(VSeq(vs))
       case None => None)
    case DDict(entries) =>
      (match ReadEntries(entries)
       case Some(fs) => Some(VMap(fs))
       case None => None)
    case _ => None
  }

  function ReadValues(ds: seq<Doc>): Option<seq<Value>>
    decreases ds
  {
    if |ds| == 0 then Some([])
    else
      match (ReadValue(ds[0]), ReadValues(ds[1..]))
      case (Some(v), Some(vs)) => Some([v] + vs)
      case _ => None
  }

  function ReadEntries(es: Record): Option<seq<Field>>
    decreases es
  {
    if |es| == 0 then Some([])
    else
      match (ReadValue(es[0].doc), ReadEntries(es[1..]))
      case (Some(v), Some(rest)) => Some([Field(es[0].key, v)] + rest)
      case _ => None
  }

  /** Rendering a value loses nothing: a bool is not confused with an int,
      an int's decimal text never looks like hex, and order and keys of
      sequences and mappings survive. */
  lemma {:induction false} RenderValueLossless(v: Value)
    ensures ReadValue(RenderValue(v)) == Some(v)
    decreases v
  {
    match v
    case VBool(_) =>
    case VInt(i) =>
      var s := IntToDecimal(i);
      assert !(|s| >= 2 && s[..2] == "0x") by {
        if |s| >= 2 { assert IsDigit(s[1]); }
      }
    case VBytes(_) =>
    case VSeq(items) => RenderValuesLossless(items);
    case VMap(fields) => RenderFieldsLossless(fields);
  }

  lemma {:induction false} RenderValuesLossless(vs: seq<Value>)
    ensures ReadValues(RenderValues(vs)) == Some(vs)
    decreases vs
  {
    if |vs| > 0 {
      var ds := RenderValues(vs);
      assert ds[1..] == RenderValues(vs[1..]);
      RenderValueLossless(vs[0]);
      RenderValuesLossless(vs[1..]);
      assert [vs[0]] + vs[1..] == vs;
    }
  }

  lemma {:induction false} RenderFieldsLossless(fs: seq<Field>)
    ensures ReadEntries(RenderFields(fs)) == Some(fs)
    decreases fs
  {
    if |fs| > 0 {
      RenderValueLossless(fs[0].value);
      RenderFieldsLossless(fs[1..]);
      ReadEntriesCons(fs[0].name, RenderValue(fs[0].value), RenderFields(fs[1..]), fs[0].value, fs[1..]);
      assert [Field(fs[0].name, fs[0].value)] + fs[1..] == fs;
    }
  }

  lemma ReadEntriesCons(name: string, d: Doc, rest: Record, v: Value, vs: seq<Field>)
    requires ReadValue(d) == Some(v) && ReadEntries(rest) == Some(vs)
    ensures ReadEntries([Entry(name, d)] + rest) == Some([Field(name, v)] + vs)
  {
    assert ([Entry(name, d)] + rest)[1..] == rest;
  }

  // ---------------------------------------------------------------------
  // Type descriptors

  /** render_type_definition. */
  function RenderType(s: Sedes): (r: Doc)
    ensures s.Boolean? ==> r == DStr("bool")
    ensures s.UInt? ==> r.DStr? && |r.s| > 4 && r.s[..4] == "uint"
                        && ParseNat(r.s[4..]) == Some(8 * s.size)
    ensures s.Vector? ==> r.DList? && |r.items| == 2 && r.items[1] == DInt(s.length)
    ensures s.List? ==> r.DList? && |r.items| == 1
    ensures s.Container? ==> r.DTuple? && |r.items| == |s.fields|
    decreases s
  {
    match s
    case Boolean => DStr("bool")
    case UInt(n) =>
      var digits := NatToDecimal(8 * n);
      NatToDecimalRoundTrip(8 * n);
      assert ("uint" + digits)[4..] == digits;
      DStr("uint" + digits)
    case Vector(e, len) => DList([RenderType(e), DInt(len)])
    case List(e) => DList([RenderType(e)])
    case Container(fs) => DTuple(RenderTypes(fs))
  }

  /** One descriptor per field, in field order. */
  function RenderTypes(fs: seq<Sedes>): (r: seq<Doc>)
    ensures |r| == |fs|
    ensures forall k :: 0 <= k < |fs| ==> r[k] == RenderType(fs[k])
    decreases fs
  {
    if |fs| == 0 then [] else [RenderType(fs[0])] + RenderTypes(fs[1..])
  }

  /** The bit width a "uint<N>" descriptor names. */
  function UIntBitsOf(t: string): Option<nat> {
    if |t| > 4 && t[..4] == "uint" then ParseNat(t[4..]) else None
  }

  /** What a consumer reads back from a type descriptor. */
  function ReadType(d: Doc): Option<Sedes>
    decreases d
  {
    match d
    case DStr(t) =>
      if t == "bool" then Some(Boolean)
      else
        (match UIntBitsOf(t)
         case Some(bits) => if bits % 8 == 0 then Some(UInt(bits / 8)) else None
         case None => None)
    case DList(items) =>
      if |items| == 1 then
        (match ReadType(items[0])
         case Some(e) => Some(List(e))
         case None => None)
      else if |items| == 2 && items[1].DInt? && items[1].i >= 0 then
        (match ReadType(items[0])
         case Some(e) => Some(Vector(e, items[1].i))
         case None => None)
      else None
    case DTuple(ts) =>
      (match ReadTypes(ts)
       case Some(fs) => Some(Container(fs))
       case None => None)
    case _ => None
  }

  function ReadTypes(ds: seq<Doc>): Option<seq<Sedes>>
    decreases ds
  {
    if |ds| == 0 then Some([])
    else
      match (ReadType(ds[0]), ReadTypes(ds[1..]))
      case (Some(s), Some(ss)) => Some([s] + ss)
      case _ => None
  }

  /** Distinct schemas get distinct descriptors: the descriptor determines
      the schema, including every width, length and field order. */
  lemma {:induction false} RenderTypeLossless(s: Sedes)
    ensures ReadType(RenderType(s)) == Some(s)
    decreases s
  {
    match s
    case Boolean =>
    case UInt(n) => ReadUIntDescriptor(n);
    case Vector(e, _) => RenderTypeLossless(e);
    case List(e) => RenderTypeLossless(e);
    case Container(fs) => RenderTypesLossless(fs);
  }

  /** A "uint<N>" descriptor reads back as the UInt N / 8 bytes wide. */
  lemma ReadUIntDescriptor(n: nat)
    ensures ReadType(RenderType(UInt(n))) == Some(UInt(n))
  {
    var t := RenderType(UInt(n)).s;
    assert t != "bool" by {
      assert t[0] == 'u';
    }
    assert UIntBitsOf(t) == Some(8 * n);
    assert (8 * n) % 8 == 0 && (8 * n) / 8 == n;
  }

  lemma {:induction false} RenderTypesLossless(fs: seq<Sedes>)
    ensures ReadTypes(RenderTypes(fs)) == Some(fs)
    decreases fs
  {
    if |fs| > 0 {
      RenderTypeLossless(fs[0]);
      RenderTypesLossless(fs[1..]);
      ReadTypesCons(RenderType(fs[0]), RenderTypes(fs[1..]), fs[0], fs[1..]);
      assert RenderTypes(fs) == [RenderType(fs[0])] + RenderTypes(fs[1..]);
      assert [fs[0]] + fs[1..] == fs;
    }
  }

  lemma ReadTypesCons(d: Doc, ds: seq<Doc>, s: Sedes, ss: seq<Sedes>)
    requires ReadType(d) == Some(s) && ReadTypes(ds) == Some(ss)
    ensures ReadTypes([d] + ds) == Some([s] + ss)
  {
    assert ([d] + ds)[1..] == ds;
  }

  /** A rendered value fits a rendered type descriptor, element by element
      and field by field, as a consumer of the document checks it. */
  predicate DocFits(val: Doc, ty: Doc)
    decreases ty
  {
    match ty
    case DStr(t) =>
      if t == "bool" then val.DBool?
      else
        (match UIntBitsOf(t)
         case Some(bits) =>
           val.DStr? && (match ParseInt(val.s)
                         case Some(i) => 0 <= i < Pow(2, bits)
                         case None => false)
         case None => false)
    case DList(items) =>
      if |items| == 1 then
        val.DTuple? && forall k :: 0 <= k < |val.items| ==> DocFits(val.items[k], items[0])
      else if |items| == 2 && items[1].DInt? then
        val.DTuple? && |val.items| == items[1].i
        && forall k :: 0 <= k < |val.items| ==> DocFits(val.items[k], items[0])
      else false
    case DTuple(ts) =>
      (val.DTuple? && |val.items| == |ts|
       && forall k :: 0 <= k < |ts| ==> DocFits(val.items[k], ts[k]))
      || (val.DDict? && |val.entries| == |ts|
          && forall k :: 0 <= k < |ts| ==> DocFits(val.entries[k].doc, ts[k]))
    case _ => false
  }

  /** Positional correspondence: a value the codec accepts renders to a
      document value that fits the rendered descriptor of its schema. */
  lemma {:induction false} RenderedValueFitsType(v: Value, s: Sedes)
    requires Conforms(v, s)
    ensures DocFits(RenderValue(v), RenderType(s))
    decreases v
  {
    match s
    case Boolean =>
    case UInt(n) =>
    case List(e) =>
      forall k | 0 <= k < |v.items| {
        RenderedValueFitsType(v.items[k], e);
      }
    case Vector(e, _) =>
      forall k | 0 <= k < |v.items| {
        RenderedValueFitsType(v.items[k], e);
      }
    case Container(fs) =>
      if v.VSeq? && |v.items| == |fs| && forall k :: 0 <= k < |fs| ==> Conforms(v.items[k], fs[k]) {
        forall k | 0 <= k < |fs| {
          RenderedValueFitsType(v.items[k], fs[k]);
        }
      } else {
        forall k | 0 <= k < |fs| {
          RenderedValueFitsType(v.fields[k].value, fs[k]);
        }
      }
  }

  // ---------------------------------------------------------------------
  // Test cases

  /** The keyword arguments of one render_test_case call; `None` stands for
      an omitted (or explicitly None) argument. */
  datatype CaseArgs = CaseArgs(
    sedes: Sedes,
    valid: bool,
    value: Option<Value>,
    serial: Option<Bytes>,
    description: Option<string>,
    tags: Option<seq<string>>)

  /** A valid case carries both value and serial; an invalid case never
      carries both. */
  predicate ValidityInvariant(valid: bool, hasValue: bool, hasSerial: bool) {
    if valid then hasValue && hasSerial else !(hasValue && hasSerial)
  }

  predicate Admissible(c: CaseArgs) {
    ValidityInvariant(c.valid, c.value.Some?, c.serial.Some?)
  }

  /** The invariant as a consumer of the emitted record sees it. */
  predicate RecordKeepsInvariant(rec: Record) {
    match Lookup(rec, "valid")
    case Some(DBool(valid)) =>
      ValidityInvariant(valid, Lookup(rec, "value").Some?, Lookup(rec, "ssz").Some?)
    case _ => false
  }

  /** The tags as emitted: a fresh tuple of the same strings in the same
      order; no tags at all become the empty tuple. */
  function RenderTags(tags: Option<seq<string>>): (r: seq<Doc>)
    ensures tags.None? ==> r == []
    ensures tags.Some? ==> |r| == |tags.value|
                           && forall k :: 0 <= k < |r| ==> r[k] == DStr(tags.value[k])
  {
    match tags
    case None => []
    case Some(ts) => seq(|ts|, k requires 0 <= k < |ts| => DStr(ts[k]))
  }

  function OptionalEntry(key: string, d: Option<Doc>): Record {
    if d.Some? then [Entry(key, d.value)] else []
  }

  /** Lookup finds the first entry with the key. */
  lemma {:induction false} LookupAt(rec: Record, i: nat)
    requires i < |rec|
    requires forall j :: 0 <= j < i ==> rec[j].key != rec[i].key
    ensures Lookup(rec, rec[i].key) == Some(rec[i].doc)
  {
    if i > 0 {
      assert rec[1..][i - 1] == rec[i];
      LookupAt(rec[1..], i - 1);
    }
  }

  lemma {:induction false} LookupAbsent(rec: Record, key: string)
    requires forall j :: 0 <= j < |rec| ==> rec[j].key != key
    ensures Lookup(rec, key) == None
  {
    if |rec| > 0 {
      LookupAbsent(rec[1..], key);
    }
  }

  /** The record yielded by render_test_case once its invariant check has
      passed: the rendered type, validity, optional value and serial, the
      entries the description contributes, and the tags, in that order. */
  function CaseRecord(typeDoc: Doc, valid: bool, valueDoc: Option<Doc>, sszDoc: Option<Doc>,
                      descriptionEntries: Record, tagsDoc: Doc): Record {
    [Entry("type", typeDoc), Entry("valid", DBool(valid))]
    + OptionalEntry("value", valueDoc)
    + OptionalEntry("ssz", sszDoc)
    + descriptionEntries
    + [Entry("tags", tagsDoc)]
  }

  /** What the description contributes when it is yielded as the pair
      ("description", description). */
  function DescriptionEntry(description: Option<string>): Record {
    if description.Some? then [Entry("description", DStr(description.value))] else []
  }

  /** render_test_case with the description yielded as a key/value pair.
      It raises exactly when the valid/invalid invariant is broken; the
      record always holds "type", "valid" and "tags", holds "value" exactly
      when a value was given and "ssz" exactly when a serial was given. */
  function RenderTestCase(c: CaseArgs): (r: Result<Record>)
    ensures r.Success? <==> Admissible(c)
    ensures r.Success? ==> NoDuplicates(Keys(r.value))
    ensures r.Success? ==> RecordKeepsInvariant(r.value)
    ensures r.Success? ==> |r.value| >= 3 && Keys(r.value)[0] == "type" && Keys(r.value)[1] == "valid"
                           && Keys(r.value)[|r.value| - 1] == "tags"
    ensures r.Success? ==> Lookup(r.value, "type") == Some(RenderType(c.sedes))
    ensures r.Success? ==> Lookup(r.value, "valid") == Some(DBool(c.valid))
    ensures r.Success? ==> (Lookup(r.value, "value").Some? <==> c.value.Some?)
    ensures r.Success? && c.value.Some? ==>
              Lookup(r.value, "value") == Some(RenderValue(c.value.value))
    ensures r.Success? ==> (Lookup(r.value, "ssz").Some? <==> c.serial.Some?)
    ensures r.Success? && c.serial.Some? ==>
              Lookup(r.value, "ssz").value.DStr?
              && DecodeHex(Lookup(r.value, "ssz").value.s) == Some(c.serial.value)
    ensures r.Success? ==> (Lookup(r.value, "description").Some? <==> c.description.Some?)
    ensures r.Success? && c.description.Some? ==>
              Lookup(r.value, "description") == Some(DStr(c.description.value))
    ensures r.Success? ==> Lookup(r.value, "tags") == Some(DTuple(RenderTags(c.tags)))
  {
    if !Admissible(c) then
      Failure(if c.valid then "For valid test cases, both value and ssz must be present"
              else "For invalid test cases, either value or ssz must not be present")
    else
      var valueDoc := if c.value.Some? then Some(RenderValue(c.value.value)) else None;
      var sszDoc := if c.serial.Some? then Some(DStr(EncodeHex(c.serial.value))) else None;
      var desc := DescriptionEntry(c.description);
      var tagsDoc := DTuple(RenderTags(c.tags));
      var rec := CaseRecord(RenderType(c.sedes), c.valid, valueDoc, sszDoc, desc, tagsDoc);
      CaseRecordFacts(RenderType(c.sedes), c.valid, valueDoc, sszDoc, desc, tagsDoc, "description");
      assert c.serial.Some? ==> DecodeHex(EncodeHex(c.serial.value)) == Some(c.serial.value) by {
        if c.serial.Some? { EncodeHexRoundTrip(c.serial.value); }
      }
      Success(rec)
  }

  /** The key layout of a case record whose description part holds at most
      one entry, under `descriptionKey`. */
  lemma CaseRecordFacts(typeDoc: Doc, valid: bool, valueDoc: Option<Doc>, sszDoc: Option<Doc>,
                        desc: Record, tagsDoc: Doc, descriptionKey: string)
    requires |desc| <= 1
    requires |desc| == 1 ==> desc[0].key == descriptionKey
    requires descriptionKey !in {"type", "valid", "value", "ssz", "tags"}
    ensures var rec := CaseRecord(typeDoc, valid, valueDoc, sszDoc, desc, tagsDoc);
      && NoDuplicates(Keys(rec))
      && |rec| >= 3 && Keys(rec)[0] == "type" && Keys(rec)[1] == "valid" && Keys(rec)[|rec| - 1] == "tags"
      && Lookup(rec, "type") == Some(typeDoc)
      && Lookup(rec, "valid") == Some(DBool(valid))
      && Lookup(rec, "value") == valueDoc
      && Lookup(rec, "ssz") == sszDoc
      && Lookup(rec, descriptionKey) == (if |desc| == 1 then Some(desc[0].doc) else None)
      && Lookup(rec, "tags") == Some(tagsDoc)
  {
    CaseRecordKeys(typeDoc, valid, valueDoc, sszDoc, desc, tagsDoc, descriptionKey);
    CaseRecordLookups(typeDoc, valid, valueDoc, sszDoc, desc, tagsDoc, descriptionKey);
  }

  lemma CaseRecordKeys(typeDoc: Doc, valid: bool, valueDoc: Option<Doc>, sszDoc: Option<Doc>,
                       desc: Record, tagsDoc: Doc, descriptionKey: string)
    requires |desc| <= 1
    requires |desc| == 1 ==> desc[0].key == descriptionKey
    requires descriptionKey !in {"type", "valid", "value", "ssz", "tags"}
    ensures var rec := CaseRecord(typeDoc, valid, valueDoc, sszDoc, desc, tagsDoc);
      Keys(rec) == ["type", "valid"] + OptionalKey("value", valueDoc.Some?) + OptionalKey("ssz", sszDoc.Some?)
                   + OptionalKey(descriptionKey, |desc| == 1) + ["tags"]
      && NoDuplicates(Keys(rec))
  {
    var head := [Entry("type", typeDoc), Entry("valid", DBool(valid))];
    var v := OptionalEntry("value", valueDoc);
    var z := OptionalEntry("ssz", sszDoc);
    var tail := [Entry("tags", tagsDoc)];
    KeysConcat(head, v);
    KeysConcat(head + v, z);
    KeysConcat(head + v + z, desc);
    KeysConcat(head + v + z + desc, tail);
    assert Keys(head) == ["type", "valid"];
    assert Keys(v) == OptionalKey("value", valueDoc.Some?);
    assert Keys(z) == OptionalKey("ssz", sszDoc.Some?);
    assert Keys(desc) == OptionalKey(descriptionKey, |desc| == 1);
    assert Keys(tail) == ["tags"];
    CaseKeysDistinct(valueDoc.Some?, sszDoc.Some?, |desc| == 1, descriptionKey);
  }

  lemma CaseRecordLookups(typeDoc: Doc, valid: bool, valueDoc: Option<Doc>, sszDoc: Option<Doc>,
                          desc: Record, tagsDoc: Doc, descriptionKey: string)
    requires |desc| <= 1
    requires |desc| == 1 ==> desc[0].key == descriptionKey
    requires descriptionKey !in {"type", "valid", "value", "ssz", "tags"}
    ensures var rec := CaseRecord(typeDoc, valid, valueDoc, sszDoc, desc, tagsDoc);
      && Lookup(rec, "type") == Some(typeDoc)
      && Lookup(rec, "valid") == Some(DBool(valid))
      && Lookup(rec, "value") == valueDoc
      && Lookup(rec, "ssz") == sszDoc
      && Lookup(rec, descriptionKey) == (if |desc| == 1 then Some(desc[0].doc) else None)
      && Lookup(rec, "tags") == Some(tagsDoc)
  {
    CaseRecordFixedLookups(typeDoc, valid, valueDoc, sszDoc, desc, tagsDoc, descriptionKey);
    CaseRecordOptionalLookups(typeDoc, valid, valueDoc, sszDoc, desc, tagsDoc, descriptionKey);
  }

  /** The entries every record holds: "type", "valid" and "tags". */
  lemma CaseRecordFixedLookups(typeDoc: Doc, valid: bool, valueDoc: Option<Doc>, sszDoc: Option<Doc>,
                               desc: Record, tagsDoc: Doc, descriptionKey: string)
    requires |desc| <= 1
    requires |desc| == 1 ==> desc[0].key == descriptionKey
    requires descriptionKey !in {"type", "valid", "value", "ssz", "tags"}
    ensures var rec := CaseRecord(typeDoc, valid, valueDoc, sszDoc, desc, tagsDoc);
      && Lookup(rec, "type") == Some(typeDoc)
      && Lookup(rec, "valid") == Some(DBool(valid))
      && Lookup(rec, "tags") == Some(tagsDoc)
  {
    var rec := CaseRecord(typeDoc, valid, valueDoc, sszDoc, desc, tagsDoc);
    CaseRecordKeys(typeDoc, valid, valueDoc, sszDoc, desc, tagsDoc, descriptionKey);
    assert forall j :: 0 <= j < |rec| ==> rec[j].key == Keys(rec)[j];
    LookupByKeys(rec, "type", 0, typeDoc);
    LookupByKeys(rec, "valid", 1, DBool(valid));
    LookupByKeys(rec, "tags", |rec| - 1, tagsDoc);
  }

  /** The entries present exactly when their argument was given. */
  lemma CaseRecordOptionalLookups(typeDoc: Doc, valid: bool, valueDoc: Option<Doc>, sszDoc: Option<Doc>,
                                  desc: Record, tagsDoc: Doc, descriptionKey: string)
    requires |desc| <= 1
    requires |desc| == 1 ==> desc[0].key == descriptionKey
    requires descriptionKey !in {"type", "valid", "value", "ssz", "tags"}
    ensures var rec := CaseRecord(typeDoc, valid, valueDoc, sszDoc, desc, tagsDoc);
      && Lookup(rec, "value") == valueDoc
      && Lookup(rec, "ssz") == sszDoc
      && Lookup(rec, descriptionKey) == (if |desc| == 1 then Some(desc[0].doc) else None)
  {
    var head := [Entry("type", typeDoc), Entry("valid", DBool(valid))];
    var v := OptionalEntry("value", valueDoc);
    var z := OptionalEntry("ssz", sszDoc);
    var tail := [Entry("tags", tagsDoc)];
    assert "valid" != "value" by { assert "valid"[3] != "value"[3]; }
    assert "type" != "ssz" && "valid" != "ssz" && "value" != "ssz";
    assert "tags" != "value" && "tags" != "ssz";
    LookupInParts(head, v, z, desc, tail, "value");
    LookupInParts(head, v, z, desc, tail, "ssz");
    LookupInParts(head, v, z, desc, tail, descriptionKey);
    OptionalLookup("value", valueDoc, "ssz");
    OptionalLookup("value", valueDoc, descriptionKey);
    OptionalLookup("ssz", sszDoc, "value");
    OptionalLookup("ssz", sszDoc, descriptionKey);
    LookupAbsent(head, "value");
    LookupAbsent(head, "ssz");
    LookupAbsent(head, descriptionKey);
    LookupAbsent(tail, "value");
    LookupAbsent(tail, "ssz");
    LookupAbsent(tail, descriptionKey);
    assert Lookup(v, "value") == valueDoc;
    assert Lookup(z, "ssz") == sszDoc;
    assert Lookup(v, "ssz") == None && Lookup(v, descriptionKey) == None;
    assert Lookup(z, "value") == None && Lookup(z, descriptionKey) == None;
    LookupAbsent(desc, "value");
    LookupAbsent(desc, "ssz");
    if |desc| == 1 {
      LookupAt(desc, 0);
    } else {
      LookupAbsent(desc, descriptionKey);
    }
  }

  lemma OptionalLookup(key: string, d: Option<Doc>, other: string)
    requires other != key
    ensures Lookup(OptionalEntry(key, d), key) == d
    ensures Lookup(OptionalEntry(key, d), other) == None
  {
  }

  /** Looking a key up in five records one after the other finds it in
      the first of them that holds it. */
  lemma LookupInParts(a: Record, b: Record, c: Record, d: Record, e: Record, key: string)
    ensures Lookup(a + b + c + d + e, key)
            == if Lookup(a, key).Some? then Lookup(a, key)
               else if Lookup(b, key).Some? then Lookup(b, key)
               else if Lookup(c, key).Some? then Lookup(c, key)
               else if Lookup(d, key).Some? then Lookup(d, key)
               else Lookup(e, key)
  {
    LookupConcat(a, b, key);
    LookupConcat(a + b, c, key);
    LookupConcat(a + b + c, d, key);
    LookupConcat(a + b + c + d, e, key);
  }

  /** Looking a key up in two records one after the other finds it in the
      first when it is there, and in the second otherwise. */
  lemma {:induction false} LookupConcat(a: Record, b: Record, key: string)
    ensures Lookup(a + b, key) == if Lookup(a, key).Some? then Lookup(a, key) else Lookup(b, key)
  {
    if |a| > 0 {
      assert (a + b)[0] == a[0];
      assert (a + b)[1..] == a[1..] + b;
      LookupConcat(a[1..], b, key);
    } else {
      assert a + b == b;
    }
  }

  lemma CaseKeysDistinct(hasValue: bool, hasSerial: bool, hasDescription: bool, descriptionKey: string)
    requires descriptionKey !in {"type", "valid", "value", "ssz", "tags"}
    ensures NoDuplicates(["type", "valid"] + OptionalKey("value", hasValue) + OptionalKey("ssz", hasSerial)
                         + OptionalKey(descriptionKey, hasDescription) + ["tags"])
  {
    var fixed := ["type", "valid", "value", "ssz", "tags"];
    assert NoDuplicates(fixed) by {
      assert fixed[0][0] == 't' && fixed[1][0] == 'v' && fixed[2][0] == 'v' && fixed[3][0] == 's' && fixed[4][0] == 't';
      assert fixed[0][1] == 'y' && fixed[4][1] == 'a' && fixed[1][2] == 'l' && fixed[2][2] == 'l';
      assert fixed[1][3] == 'i' && fixed[2][3] == 'u';
    }
    var keys := ["type", "valid"] + OptionalKey("value", hasValue) + OptionalKey("ssz", hasSerial)
                + OptionalKey(descriptionKey, hasDescription) + ["tags"];
    forall i, j | 0 <= i < j < |keys| ensures keys[i] != keys[j] {
      assert keys[i] in fixed || keys[i] == descriptionKey;
      assert keys[j] in fixed || keys[j] == descriptionKey;
    }
  }

  lemma KeysConcat(a: Record, b: Record)
    ensures Keys(a + b) == Keys(a) + Keys(b)
  {
    assert forall k :: 0 <= k < |a + b| ==> Keys(a + b)[k] == (Keys(a) + Keys(b))[k];
  }

  function OptionalKey(key: string, present: bool): seq<string> {
    if present then [key] else []
  }

  lemma LookupByKeys(rec: Record, key: string, i: nat, d: Doc)
    requires i < |rec| && rec[i] == Entry(key, d)
    requires forall j :: 0 <= j < i ==> rec[j].key != key
    ensures Lookup(rec, key) == Some(d)
  {
    LookupAt(rec, i);
  }

  /** What the description contributes as the code is written: the bare
      description is yielded instead of a pair, and `to_dict` reads any
      two-element iterable as a pair, so a two-character description becomes
      the entry (first character, second character) and any other raises. */
  function DescriptionAsWritten(description: Option<string>): (r: Result<Record>)
    ensures r.Success? <==> description.None? || |description.value| == 2
    ensures r.Success? ==> |r.value| <= 1
  {
    match description
    case None => Success([])
    case Some(d) =>
      if |d| == 2 then Success([Entry([d[0]], DStr([d[1]]))])
      else Failure("dictionary update sequence element has length " + NatToDecimal(|d|) + "; 2 is required")
  }

  /** render_test_case exactly as written, description handling included. */
  function RenderTestCaseAsWritten(c: CaseArgs): (r: Result<Record>)
    ensures r.Success? <==> Admissible(c) && (c.description.None? || |c.description.value| == 2)
    ensures c.description.None? ==> r == RenderTestCase(c)
  {
    if !Admissible(c) then RenderTestCase(c)
    else
      match DescriptionAsWritten(c.description)
      case Failure(e) => Failure(e)
      case Success(desc) =>
        var valueDoc := if c.value.Some? then Some(RenderValue(c.value.value)) else None;
        var sszDoc := if c.serial.Some? then Some(DStr(EncodeHex(c.serial.value))) else None;
        Success(CaseRecord(RenderType(c.sedes), c.valid, valueDoc, sszDoc, desc, DTuple(RenderTags(c.tags))))
  }

  /** The discrepancy: an admissible case with a description of any length
      other than two is rejected as written, while yielding the pair
      ("description", description) records it under its own key. */
  lemma DescriptionRejectedAsWritten(c: CaseArgs)
    requires Admissible(c)
    requires c.description.Some? && |c.description.value| != 2
    ensures RenderTestCaseAsWritten(c).Failure?
    ensures RenderTestCase(c).Success?
    ensures Lookup(RenderTestCase(c).value, "description") == Some(DStr(c.description.value))
  {
    var valueDoc := if c.value.Some? then Some(RenderValue(c.value.value)) else None;
    var sszDoc := if c.serial.Some? then Some(DStr(EncodeHex(c.serial.value))) else None;
    CaseRecordLookups(RenderType(c.sedes), c.valid, valueDoc, sszDoc, DescriptionEntry(c.description),
                      DTuple(RenderTags(c.tags)), "description");
  }

  // ---------------------------------------------------------------------
  // Suites

  /** render_test: the suite document. "summary" appears exactly when one
      is given; the test cases are kept in generation order. */
  function RenderTest(title: string, summary: Option<string>, version: string, cases: seq<Doc>): (r: Doc)
    ensures r.DDict? && NoDuplicates(Keys(r.entries))
    ensures Lookup(r.entries, "title") == Some(DStr(title))
    ensures Lookup(r.entries, "summary").Some? <==> summary.Some?
    ensures summary.Some? ==> Lookup(r.entries, "summary") == Some(DStr(summary.value))
    ensures Lookup(r.entries, "version") == Some(DStr(version))
    ensures Lookup(r.entries, "test_cases") == Some(DTuple(cases))
  {
    var entries := SuiteEntries(title, summary, version, cases);
    SuiteEntriesFacts(title, summary, version, cases);
    DDict(entries)
  }

  function SuiteEntries(title: string, summary: Option<string>, version: string, cases: seq<Doc>): Record {
    [Entry("title", DStr(title))]
    + OptionalEntry("summary", if summary.Some? then Some(DStr(summary.value)) else None)
    + [Entry("version", DStr(version)), Entry("test_cases", DTuple(cases))]
  }

  lemma SuiteEntriesFacts(title: string, summary: Option<string>, version: string, cases: seq<Doc>)
    ensures var entries := SuiteEntries(title, summary, version, cases);
      && NoDuplicates(Keys(entries))
      && Lookup(entries, "title") == Some(DStr(title))
      && (Lookup(entries, "summary").Some? <==> summary.Some?)
      && (summary.Some? ==> Lookup(entries, "summary") == Some(DStr(summary.value)))
      && Lookup(entries, "version") == Some(DStr(version))
      && Lookup(entries, "test_cases") == Some(DTuple(cases))
  {
    var entries := SuiteEntries(title, summary, version, cases);
    var iv := if summary.Some? then 2 else 1;
    assert |entries| == iv + 2;
    assert entries[0] == Entry("title", DStr(title));
    assert entries[iv] == Entry("version", DStr(version));
    assert entries[iv + 1] == Entry("test_cases", DTuple(cases));
    assert summary.Some? ==> entries[1] == Entry("summary", DStr(summary.value));
    LookupAt(entries, 0);
    LookupAt(entries, iv);
    LookupAt(entries, iv + 1);
    if summary.Some? { LookupAt(entries, 1); } else { LookupAbsent(entries, "summary"); }
    assert forall k :: 0 <= k < |entries| ==> Keys(entries)[k] == entries[k].key;
  }

  /** `d` is the record rendered for case `c`. */
  predicate RendersAs(c: CaseArgs, d: Doc) {
    RenderTestCase(c).Success? && d == DDict(RenderTestCase(c).value)
  }

  /** Renders every case in order, stopping at the first one whose
      invariant is broken, as consuming the generator into a tuple does. */
  function RenderCases(cases: seq<CaseArgs>): (r: Result<seq<Doc>>)
    ensures r.Success? <==> forall k :: 0 <= k < |cases| ==> Admissible(cases[k])
    ensures r.Success? ==> |r.value| == |cases|
    ensures r.Success? ==> forall k :: 0 <= k < |cases| ==> RendersAs(cases[k], r.value[k])
  {
    if |cases| == 0 then Success([])
    else
      match RenderTestCase(cases[0])
      case Failure(e) => Failure(e)
      case Success(rec) =>
        match RenderCases(cases[1..])
        case Failure(e) => Failure(e)
        case Success(rest) =>
          ConsPointwise(RendersAs, cases, DDict(rec), rest);
          Success([DDict(rec)] + rest)
  }

  /** A relation holding for the heads and pointwise for the tails holds
      pointwise for the whole sequences. */
  lemma ConsPointwise<A, B>(rel: (A, B) -> bool, xs: seq<A>, y: B, ys: seq<B>)
    requires |xs| > 0 && rel(xs[0], y) && |ys| == |xs| - 1
    requires forall k :: 0 <= k < |ys| ==> rel(xs[1..][k], ys[k])
    ensures forall k :: 0 <= k < |xs| ==> rel(xs[k], ([y] + ys)[k])
  {
    var zs := [y] + ys;
    forall k | 0 <= k < |xs| ensures rel(xs[k], zs[k]) {
      if k > 0 {
        assert xs[k] == xs[1..][k - 1];
        assert zs[k] == ys[k - 1];
      }
    }
  }

  /** A suite whose cases all keep the invariant renders successfully and
      holds one record per case, in order. */
  function RenderSuite(title: string, summary: string, version: string, cases: seq<CaseArgs>): (r: Result<Doc>)
    ensures r.Success? <==> forall k :: 0 <= k < |cases| ==> Admissible(cases[k])
    ensures r.Success? ==> r.value.DDict?
                           && Lookup(r.value.entries, "version") == Some(DStr(version))
    ensures r.Success? ==>
              Lookup(r.value.entries, "test_cases") == Some(DTuple(RenderCases(cases).value))
  {
    match RenderCases(cases)
    case Failure(e) => Failure(e)
    case Success(docs) => Success(RenderTest(title, Some(summary), version, docs))
  }

  /** The parameters of render_test, all keyword-only and without defaults. */
  const RENDER_TEST_KEYWORDS: seq<string> := ["title", "summary", "version", "test_cases"]

  /** A call of render_test whose caller passes the version tag under
      `tagKeyword` (and title, summary and test_cases under their own
      names). Python binds keywords by name: an unexpected keyword raises a
      TypeError before the body runs. */
  function RenderTestCall(title: string, summary: string, tagKeyword: string, tag: string,
                          cases: seq<CaseArgs>): (r: Result<Doc>)
    ensures tagKeyword !in RENDER_TEST_KEYWORDS ==> r.Failure?
    ensures tagKeyword == "version" ==> r == RenderSuite(title, summary, tag, cases)
  {
    if tagKeyword == "version" then RenderSuite(title, summary, tag, cases)
    else Failure("render_test() got an unexpected keyword argument '" + tagKeyword + "'")
  }

  /** The cases every generator emits as valid: a value the codec accepts,
      its encoding under `enc` as the serial, no description, given tags. */
  predicate ValidCase(c: CaseArgs, enc: (Value, Sedes) -> Bytes, tags: seq<string>) {
    && c.valid
    && c.value.Some?
    && c.serial == Some(enc(c.value.value, c.sedes))
    && c.description.None?
    && c.tags == Some(tags)
    && Conforms(c.value.value, c.sedes)
  }

  /** The number of test cases a suite document holds. */
  function CaseCount(doc: Doc): Option<nat> {
    if doc.DDict? then
      match Lookup(doc.entries, "test_cases")
      case Some(DTuple(items)) => Some(|items|)
      case _ => None
    else None
  }

  /** A suite of admissible cases renders, and holds one document per case. */
  lemma AdmissibleCasesRender(title: string, summary: string, version: string, cases: seq<CaseArgs>)
    requires forall k :: 0 <= k < |cases| ==> Admissible(cases[k])
    ensures RenderSuite(title, summary, version, cases).Success?
    ensures CaseCount(RenderSuite(title, summary, version, cases).value) == Some(|cases|)
  {
    var r := RenderSuite(title, summary, version, cases);
    assert Lookup(r.value.entries, "test_cases") == Some(DTuple(RenderCases(cases).value));
  }

  /** The entry under `key` of the k-th test case record of a suite document. */
  function CaseEntry(doc: Doc, k: nat, key: string): Option<Doc> {
    if doc.DDict? then
      match Lookup(doc.entries, "test_cases")
      case Some(DTuple(items)) =>
        if k < |items| && items[k].DDict? then Lookup(items[k].entries, key) else None
      case _ => None
    else None
  }

  /** In a suite of admissible cases, the k-th record carries the k-th
      case's valid flag and tags. */
  lemma SuiteCaseEntries(title: string, summary: string, version: string, cases: seq<CaseArgs>, k: nat)
    requires forall j :: 0 <= j < |cases| ==> Admissible(cases[j])
    requires k < |cases|
    ensures RenderSuite(title, summary, version, cases).Success?
    ensures CaseEntry(RenderSuite(title, summary, version, cases).value, k, "valid")
              == Some(DBool(cases[k].valid))
    ensures CaseEntry(RenderSuite(title, summary, version, cases).value, k, "tags")
              == Some(DTuple(RenderTags(cases[k].tags)))
  {
    var docs := RenderCases(cases).value;
    assert RendersAs(cases[k], docs[k]);
  }

  /** A suite of admissible cases marks each record valid exactly when its
      case is. */
  lemma SuiteValidFlags(title: string, summary: string, version: string, cases: seq<CaseArgs>)
    requires forall j :: 0 <= j < |cases| ==> Admissible(cases[j])
    ensures RenderSuite(title, summary, version, cases).Success?
    ensures forall k :: 0 <= k < |cases| ==>
              CaseEntry(RenderSuite(title, summary, version, cases).value, k, "valid") == Some(DBool(cases[k].valid))
  {
    forall k | 0 <= k < |cases|
      ensures CaseEntry(RenderSuite(title, summary, version, cases).value, k, "valid") == Some(DBool(cases[k].valid))
    {
      SuiteCaseEntries(title, summary, version, cases, k);
    }
  }

  /** A suite of admissible cases chained from two generators, each tagging
      all its cases alike: the records carry the first generator's tags,
      then the second's. */
  lemma ChainedSuiteTags(title: string, summary: string, version: string,
                         xs: seq<CaseArgs>, ys: seq<CaseArgs>, tx: seq<string>, ty: seq<string>)
    requires forall j :: 0 <= j < |xs| ==> Admissible(xs[j]) && xs[j].tags == Some(tx)
    requires forall j :: 0 <= j < |ys| ==> Admissible(ys[j]) && ys[j].tags == Some(ty)
    ensures RenderSuite(title, summary, version, xs + ys).Success?
    ensures forall k :: 0 <= k < |xs| ==>
              CaseEntry(RenderSuite(title, summary, version, xs + ys).value, k, "tags") == Some(DTuple(RenderTags(Some(tx))))
    ensures forall k :: |xs| <= k < |xs| + |ys| ==>
              CaseEntry(RenderSuite(title, summary, version, xs + ys).value, k, "tags") == Some(DTuple(RenderTags(Some(ty))))
  {
    var cases := xs + ys;
    assert forall k :: 0 <= k < |xs| ==> cases[k] == xs[k];
    assert forall k :: |xs| <= k < |cases| ==> cases[k] == ys[k - |xs|];
    forall k | 0 <= k < |cases|
      ensures CaseEntry(RenderSuite(title, summary, version, cases).value, k, "tags") == Some(DTuple(RenderTags(cases[k].tags)))
    {
      SuiteCaseEntries(title, summary, version, cases, k);
    }
  }

  /** Called with the `version` keyword, render_test on admissible cases
      yields a document with one entry per case. */
  lemma AdmissibleCallRenders(title: string, summary: string, tagKeyword: string, tag: string,
                              cases: seq<CaseArgs>)
    requires forall k :: 0 <= k < |cases| ==> Admissible(cases[k])
    ensures tagKeyword == "version" ==> RenderTestCall(title, summary, tagKeyword, tag, cases).Success?
    ensures tagKeyword == "version" ==>
              CaseCount(RenderTestCall(title, summary, tagKeyword, tag, cases).value) == Some(|cases|)
  {
    AdmissibleCasesRender(title, summary, tag, cases);
  }

  /** render_test called on admissible cases inside a computation on some
      state, leaving that state at `rest`: it renders exactly when the tag
      is passed as `version`, and raises when it is passed under a keyword
      render_test does not have. */
  function SuiteRun<S>(title: string, summary: string, keyword: string, tag: string,
                       cases: seq<CaseArgs>, rest: S): (r: (Result<Doc>, S))
    requires forall k :: 0 <= k < |cases| ==> Admissible(cases[k])
    ensures keyword == "version" ==> r.0.Success? && CaseCount(r.0.value) == Some(|cases|)
    ensures keyword !in RENDER_TEST_KEYWORDS ==> r.0.Failure?
    ensures r.1 == rest
  {
    AdmissibleCallRenders(title, summary, keyword, tag, cases);
    (RenderTestCall(title, summary, keyword, tag, cases), rest)
  }

  /** Valid cases are admissible. */
  lemma ValidCasesAdmissible(cases: seq<CaseArgs>, enc: (Value, Sedes) -> Bytes, tags: seq<string>)
    requires forall k :: 0 <= k < |cases| ==> ValidCase(cases[k], enc, tags)
    ensures forall k :: 0 <= k < |cases| ==> Admissible(cases[k])
  {
  }

  /** Two runs of admissible cases make one. */
  lemma AdmissibleConcat(a: seq<CaseArgs>, b: seq<CaseArgs>)
    requires forall k :: 0 <= k < |a| ==> Admissible(a[k])
    requires forall k :: 0 <= k < |b| ==> Admissible(b[k])
    ensures forall k :: 0 <= k < |a + b| ==> Admissible((a + b)[k])
  {
    forall k | |a| <= k < |a + b| ensures (a + b)[k] == b[k - |a|] {}
  }

  /** Appending one element keeps every earlier index and puts it last. */
  lemma AppendIndex<T>(xs: seq<T>, x: T)
    ensures |xs + [x]| == |xs| + 1 && (xs + [x])[|xs|] == x
    ensures forall j :: 0 <= j < |xs| ==> (xs + [x])[j] == xs[j]
  {
  }

  /** The blocks of cases, one after the other. */
  function Flatten(blocks: seq<seq<CaseArgs>>): seq<CaseArgs> {
    if |blocks| == 0 then [] else blocks[0] + Flatten(blocks[1..])
  }

  /** Flattening a block in front of others puts its cases first. */
  lemma FlattenCons(b: seq<CaseArgs>, bs: seq<seq<CaseArgs>>)
    ensures Flatten([b] + bs) == b + Flatten(bs)
  {
    assert ([b] + bs)[1..] == bs;
  }

  /** Blocks all `w` long flatten to `w` cases per block. */
  lemma {:induction false} FlattenLength(blocks: seq<seq<CaseArgs>>, w: nat)
    requires forall j :: 0 <= j < |blocks| ==> |blocks[j]| == w
    ensures |Flatten(blocks)| == w * |blocks|
  {
    if |blocks| > 0 {
      FlattenLength(blocks[1..], w);
      assert w * |blocks| == w + w * (|blocks| - 1);
    }
  }

  /** Every case of every block is valid, so every flattened case is. */
  lemma {:induction false} FlattenValid(blocks: seq<seq<CaseArgs>>, enc: (Value, Sedes) -> Bytes, tags: seq<string>)
    requires forall j, m :: 0 <= j < |blocks| && 0 <= m < |blocks[j]| ==> ValidCase(blocks[j][m], enc, tags)
    ensures forall k :: 0 <= k < |Flatten(blocks)| ==> ValidCase(Flatten(blocks)[k], enc, tags)
  {
    if |blocks| > 0 {
      FlattenValid(blocks[1..], enc, tags);
      var rest := Flatten(blocks[1..]);
      forall k | 0 <= k < |Flatten(blocks)| ensures ValidCase(Flatten(blocks)[k], enc, tags) {
        if k >= |blocks[0]| {
          assert Flatten(blocks)[k] == rest[k - |blocks[0]|];
        } else {
          assert Flatten(blocks)[k] == blocks[0][k];
        }
      }
    }
  }

  /** A property every case of every block has, every flattened case has. */
  lemma {:induction false} FlattenAll(blocks: seq<seq<CaseArgs>>, p: CaseArgs -> bool)
    requires forall j, m :: 0 <= j < |blocks| && 0 <= m < |blocks[j]| ==> p(blocks[j][m])
    ensures forall k :: 0 <= k < |Flatten(blocks)| ==> p(Flatten(blocks)[k])
  {
    if |blocks| > 0 {
      FlattenAll(blocks[1..], p);
      var rest := Flatten(blocks[1..]);
      forall k | 0 <= k < |Flatten(blocks)| ensures p(Flatten(blocks)[k]) {
        if k >= |blocks[0]| {
          assert Flatten(blocks)[k] == rest[k - |blocks[0]|];
        } else {
          assert Flatten(blocks)[k] == blocks[0][k];
        }
      }
    }
  }

  /** Every case of every block is admissible, so every flattened case is. */
  lemma {:induction false} FlattenAdmissible(blocks: seq<seq<CaseArgs>>)
    requires forall j, m :: 0 <= j < |blocks| && 0 <= m < |blocks[j]| ==> Admissible(blocks[j][m])
    ensures forall k :: 0 <= k < |Flatten(blocks)| ==> Admissible(Flatten(blocks)[k])
  {
    if |blocks| > 0 {
      FlattenAdmissible(blocks[1..]);
      var rest := Flatten(blocks[1..]);
      forall k | 0 <= k < |Flatten(blocks)| ensures Admissible(Flatten(blocks)[k]) {
        if k >= |blocks[0]| {
          assert Flatten(blocks)[k] == rest[k - |blocks[0]|];
        } else {
          assert Flatten(blocks)[k] == blocks[0][k];
        }
      }
    }
  }
}
