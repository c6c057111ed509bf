# SSZ test-vector generators in Dafny

This project models the generators that write the SSZ conformance test vectors. SSZ is the binary encoding used by Ethereum 2.0.

- **Schemas and values.** An SSZ schema ("sedes") is Boolean, UInt, List, Vector or Container. The generators draw random schemas of each, then random values that fit a schema.
- **Enumerated cases.** They also enumerate boundary and edge cases: UInt bounds and out-of-bounds values, serials of the wrong length, invalid Boolean bytes.
- **Rendering.** Every case passes through the renderer. The renderer checks the valid/invalid rule and turns the case into a document record of keys and values. A suite document holds a title, a summary, a version and the rendered cases.

The model is functional:

- Schemas (`Schema.Sedes`) and values (`Schema.Value`) are immutable datatypes.
- `Schema.Conforms` is the set of values the codec accepts for a schema.
- Rendered documents are `Renderers.Doc`. A record is an ordered list of key/value entries.
- Randomness is an explicit finite stream of draws (`Draws.Stream`). Each draw function returns what it drew together with the rest of the stream, so every recursion over draws terminates.

Four things the code depends on are parameters of the model rather than parts of it:

- **The codec's `encode`.** This is the parameter `enc: (Value, Sedes) -> Bytes`: deterministic, but otherwise unconstrained.
- **Python's Mersenne Twister.** `random.seed(n)` becomes the parameter `mt: int -> Stream`, which maps a seed to the stream it produces. The global generator's state is the stream itself.
- **The module-level `Random(0)` instances** of the flat and basic generators. These are never reseeded, so the model takes their current stream as an argument and returns what is left of it.
- **The coin.** The test `random.random() < 1 - 1/4` in the deep builder reads one draw `d` and goes deeper when `d % 4 != 0`.

The modules follow the source files:

| module | file | what it holds |
|---|---|---|
| `Wrappers` | — | `Option`, `Result`, `NoDuplicates` |
| `Schema` | — | sedes, values, `Conforms`, `Pow`, widths and depths |
| `Draws` | — | `randint`, `choice` and the coin over an explicit stream |
| `Text` | — | decimal and hex text with their parsers (`str(int)`, `encode_hex`) |
| `Renderers` | ssz/renderers.py | value, type and case rendering, suite documents |
| `RandomScope` | ssz/_utils.py | `random_seed`, `seed`, `get_random_bytes` |
| `NestedComposite` | ssz/nested_composite_types.py | random values, schema builders, two-layer and deep suites |
| `FlatComposite` | ssz/flat_composite_types.py | flat lists, containers and vectors |
| `UIntGenerators` | ssz/uint_test_generators.py | bounds, random and wrong-length UInt suites |
| `BoolGenerators` | ssz/bool_test_generators.py | true/false, wrong-length and invalid-byte Boolean suites |
| `BasicTypes` | ssz/basic_types.py | basic UInt and Boolean suites |

A UInt is modelled by its width in bytes: `UInt(n)` is the sedes the source builds as `UInt(8*n)`. The source reads that width as `.size` in the renderer and as `.length` in the wrong-length generator. Both are the bit size divided by 8 here.

## Model

| member | source | states |
|---|---|---|
| Text.NatToDecimal | ssz/renderers.py:24-25 | a natural number renders as a non-empty string of decimal digits with no leading zero; the text starts with '0' exactly when the number is 0 |
| Text.IntToDecimal | ssz/renderers.py:24-25 | an int renders as a non-empty string of decimal digits, with a leading minus exactly when the int is negative, and no leading zero after the sign unless the int is 0 |
| Text.IntToDecimalRoundTrip | ssz/renderers.py:24-25 | parsing the decimal text of any int gives that int back |
| Text.IntToDecimalInjective | ssz/renderers.py:24-25 | two ints with the same decimal text are equal |
| Text.NatToDecimalRoundTrip | ssz/renderers.py:24-25 | parsing the decimal text of any natural number gives it back |
| Text.EncodeHex | ssz/renderers.py:26-27 | hex text is "0x" followed by two characters per byte |
| Text.EncodeHexRoundTrip | ssz/renderers.py:89-90 | decoding the hex text of a byte string gives the byte string back |
| Schema.EightPowFitsUInt | ssz/nested_composite_types.py:55-56 | for a UInt of at least one byte, the top of the drawn range 8^size lies inside the UInt's range [0, 2^(8*size) - 1] |
| Draws.RandInt | ssz/nested_composite_types.py:82-85 | `randint(lo, hi)` yields a value in the closed range [lo, hi] and consumes one draw |
| Draws.RandIntReachesEveryValue | ssz/nested_composite_types.py:82-85 | every value of [lo, hi] is the outcome of some draw |
| Draws.Choice | ssz/nested_composite_types.py:43-49 | `choice(xs)` yields an element of xs and consumes one draw |
| Draws.Coin | ssz/nested_composite_types.py:98 | the coin consumes one draw, and says "deeper" exactly when that draw says go on |
| RandomScope.RandomSeed | ssz/_utils.py:6-13 | the body runs on the stream of the given seed, and the state afterwards is the state before |
| RandomScope.Seed | ssz/_utils.py:16-21 | a seeded function returns its body's result on the stream of seed 0 and leaves the outer state unchanged |
| RandomScope.SeedReproducible | ssz/_utils.py:16-21 | two calls of a seeded function give the same result whatever the state they start from |
| RandomScope.GetRandomBytes | ssz/_utils.py:24-25 | exactly `length` bytes, each the next draw reduced to [0, 255], with the stream advanced by `length` |
| Renderers.RenderValue | ssz/renderers.py:21-33 | a bool stays a bool, an int becomes text that parses back to it, bytes become hex that decodes back, a sequence keeps its length, a mapping keeps its keys in order |
| Renderers.RenderValues | ssz/renderers.py:28-29 | a sequence renders element by element, same length and order |
| Renderers.RenderFields | ssz/renderers.py:36-39 | a mapping renders key by key, each key kept and each value rendered |
| Renderers.RenderValueLossless | ssz/renderers.py:21-39 | reading back any rendered value gives the value: rendering loses nothing |
| Renderers.RenderValuesLossless | ssz/renderers.py:28-29 | reading back a rendered sequence gives the sequence |
| Renderers.RenderFieldsLossless | ssz/renderers.py:36-39 | reading back a rendered mapping gives the mapping, keys and order included |
| Renderers.RenderType | ssz/renderers.py:42-59 | Boolean is "bool", a UInt is "uint" plus digits, a Vector is [element, length], a List is [element], a Container is a tuple with one descriptor per field |
| Renderers.RenderTypes | ssz/renderers.py:55-59 | the field descriptors of a Container, one per field in field order |
| Renderers.ReadUIntDescriptor | ssz/renderers.py:46-47 | "uint" followed by the decimal of 8*n reads back as the UInt of n bytes |
| Renderers.RenderTypeLossless | ssz/renderers.py:42-59 | reading back a rendered type descriptor gives the schema back |
| Renderers.RenderTypesLossless | ssz/renderers.py:55-59 | reading back rendered field descriptors gives the field schemas back |
| Renderers.RenderedValueFitsType | ssz/renderers.py:21-59 | a value the codec accepts renders to a document that fits its schema's rendered descriptor, element by element and field by field |
| Renderers.RenderTags | ssz/renderers.py:78-83 | no tags render as an empty tuple, otherwise one entry per tag |
| Renderers.RenderTestCase | ssz/renderers.py:68-93 | renders exactly when a valid case has value and serial, or an invalid case lacks one of them. The record has distinct keys and starts with "type" and "valid". "value", "ssz" and "description" are present exactly when given; "value" holds the rendered value, "ssz" hex that decodes to the serial, "description" the description text, and "tags" the tags |
| Renderers.CaseKeysDistinct | ssz/renderers.py:85-93 | the keys a case record can hold are pairwise distinct, whichever optional ones appear |
| Renderers.DescriptionAsWritten | ssz/renderers.py:91-92 | the bare description succeeds only when absent or exactly two characters long |
| Renderers.RenderTestCaseAsWritten | ssz/renderers.py:68-93 | as written, a case renders only when admissible and its description is absent or two characters long; without a description it agrees with RenderTestCase |
| Renderers.DescriptionRejectedAsWritten | ssz/renderers.py:91-92 | an admissible case with a description of any other length fails as written, but renders when the description is recorded under its own key |
| Renderers.RenderTest | ssz/renderers.py:96-102 | the suite document has distinct keys, with title, version and the cases in order, and a summary exactly when one is given, holding the summary text |
| Renderers.SuiteEntriesFacts | ssz/renderers.py:96-102 | the suite entries have distinct keys; each of title, summary, version and test_cases is found under its own key |
| Renderers.RenderCases | ssz/renderers.py:96-102 | the cases render exactly when every case is admissible, one document per case, in order |
| Renderers.RenderSuite | ssz/renderers.py:96-102 | a suite renders exactly when every case is admissible, and then is a document holding its cases |
| Renderers.RenderTestCall | ssz/renderers.py:96-97 | a call passing the tag under a keyword render_test does not declare fails; passing it as `version` renders the suite |
| Renderers.SuiteCaseEntries | ssz/renderers.py:78-102 | in a rendered suite, the k-th record carries the k-th case's valid flag and tags |
| Renderers.SuiteValidFlags | ssz/renderers.py:78-102 | in a rendered suite of admissible cases, every record's "valid" entry is its case's valid flag |
| Renderers.ChainedSuiteTags | ssz/renderers.py:78-102 | a suite of two chained case lists, each tagged alike, carries the first list's tags on its first records and the second list's on the rest |
| Renderers.AdmissibleCasesRender | ssz/renderers.py:96-102 | a suite of admissible cases renders and holds exactly as many cases |
| Renderers.AdmissibleCallRenders | ssz/renderers.py:96-97 | a `version=` call on admissible cases renders a suite of that many cases |
| Renderers.SuiteRun | ssz/renderers.py:96-102 | a suite body with the tag passed as `version` renders all its cases; with an undeclared keyword it fails; the stream is left as the cases left it |
| Renderers.ValidCasesAdmissible | ssz/renderers.py:70-73 | valid cases with value and serial pass the renderer's check |
| NestedComposite.RandomBasicSedes | ssz/nested_composite_types.py:43-49 | the drawn basic schema is Boolean or one of the six UInt widths 8 to 256 bits |
| NestedComposite.RandomValue | ssz/nested_composite_types.py:52-74 | the value has the schema's shape: a Vector gets exactly its length, a List at most `max_list_length`, a Container one value per field, a UInt a value in [0, 8^size] |
| NestedComposite.RandomValues | ssz/nested_composite_types.py:57-67 | exactly `count` values, each of the element schema's shape |
| NestedComposite.RandomFieldValues | ssz/nested_composite_types.py:68-72 | one value per field, the k-th of the k-th field's shape |
| NestedComposite.GeneratedConforms | ssz/nested_composite_types.py:52-74 | a generated value for a schema with basic leaves is accepted by the codec for that schema |
| NestedComposite.Build | ssz/nested_composite_types.py:77-111 | every factory yields a schema it can produce; the deep factory's depth is at most the number of "go deeper" draws |
| NestedComposite.BuildKind | ssz/nested_composite_types.py:77-94 | a composite builder yields a schema of its kind, within its width bound, whose children the inner factory produces |
| NestedComposite.BuildList | ssz/nested_composite_types.py:77-79 | a List whose element the inner factory produces; around deep schemas its depth is one more than the draws allow the element |
| NestedComposite.BuildVector | ssz/nested_composite_types.py:82-85 | a Vector of length at most the bound whose element the inner factory produces |
| NestedComposite.BuildContainer | ssz/nested_composite_types.py:88-94 | a Container of at most the bound fields, each from the inner factory |
| NestedComposite.BuildFields | ssz/nested_composite_types.py:88-94 | exactly `count` field schemas, each from the inner factory |
| NestedComposite.DeepSedes | ssz/nested_composite_types.py:97-111 | a deep schema has only basic leaves, width at most 4, and depth at most the number of "go deeper" draws in the stream |
| NestedComposite.DeepCompositeShape | ssz/nested_composite_types.py:100-104 | a composite built around deep schemas again has basic leaves and width at most 4 |
| NestedComposite.TwoLayerCaseAt | ssz/nested_composite_types.py:128-139 | case n is valid, tagged shallow, of the outer and inner builder kinds that pairing n selects, with a value of the promised shape |
| NestedComposite.OneLayerShape | ssz/nested_composite_types.py:123-126 | an inner schema is a composite whose every child is basic |
| NestedComposite.TwoLayerShape | ssz/nested_composite_types.py:127-130 | every child of an outer schema is a composite whose children are basic |
| NestedComposite.TwoLayerConforms | ssz/nested_composite_types.py:130-132 | the drawn value of a two-layer case is accepted by the codec for its schema |
| NestedComposite.TwoLayerCasesLeft | ssz/nested_composite_types.py:127-139 | the last k cases, each of the pairing its position selects |
| NestedComposite.TwoLayerCasesShape | ssz/nested_composite_types.py:114-139 | every two-layer case is admissible and tagged shallow, and its outer schema's children are composites |
| NestedComposite.DeepCaseAt | ssz/nested_composite_types.py:145-154 | a deep case is valid, tagged deep, with a deep schema and a value whose lists are at most 4 long |
| NestedComposite.DeepCases | ssz/nested_composite_types.py:142-154 | exactly `count` deep cases |
| NestedComposite.DeepSuiteCases | ssz/nested_composite_types.py:142-154 | exactly `count` cases, all admissible |
| NestedComposite.TwoLayerSuiteCases | ssz/nested_composite_types.py:114-139 | the 180 two-layer cases (3 inner x 3 outer builders x 20) are all admissible |
| NestedComposite.TwoLayerRun | ssz/nested_composite_types.py:157-164 | the two-layer suite renders with 180 cases |
| NestedComposite.TwoLayerSuite | ssz/nested_composite_types.py:157-164 | the seeded two-layer suite renders with 180 cases and leaves the outer state unchanged |
| NestedComposite.DeepRun | ssz/nested_composite_types.py:167-174 | the deep suite renders with 20 cases |
| NestedComposite.DeepSuite | ssz/nested_composite_types.py:167-174 | the seeded deep suite renders with 20 cases and leaves the outer state unchanged |
| FlatComposite.RandomBasicValue | ssz/flat_composite_types.py:29-35 | succeeds exactly for a basic schema, giving a bool or a UInt value in [0, 8^size]; any other schema fails without drawing |
| FlatComposite.RandomBasicValueCovers | ssz/flat_composite_types.py:29-35 | every value in the drawn range of a basic schema is produced by some draw |
| FlatComposite.DrawnBasicConforms | ssz/flat_composite_types.py:29-35 | a drawn basic value of a UInt at least one byte wide is accepted by the codec |
| FlatComposite.FlatElementIsBasicSedes | ssz/flat_composite_types.py:39 | the flat element schemas are exactly Boolean and the six UInt widths |
| FlatComposite.FlatElementWidth | ssz/flat_composite_types.py:44-45 | a flat element is 1 to 32 bytes wide and its width divides 256 |
| FlatComposite.RandomBasicValues | ssz/flat_composite_types.py:51 | exactly `count` values, each a drawn basic value of the element schema |
| FlatComposite.RandomLengths | ssz/flat_composite_types.py:47-48 | exactly `count` lengths, each in [0, max] |
| FlatComposite.DrawnItemsConform | ssz/flat_composite_types.py:51 | drawn items are accepted by the codec for a List, and for a Vector of their own count |
| FlatComposite.FixedListLengths | ssz/flat_composite_types.py:41-46 | the fixed list lengths are four, starting 0 and 1 |
| FlatComposite.FixedListLengthsStraddle | ssz/flat_composite_types.py:44-45 | the last two fixed lengths straddle 256 bytes: one element short of filling them, then exactly filling them |
| FlatComposite.ListCase | ssz/flat_composite_types.py:50-58 | a valid List case whose value has exactly `length` drawn elements |
| FlatComposite.ListCasesForLengths | ssz/flat_composite_types.py:50-58 | one List case per length, in order, each with that many items |
| FlatComposite.ListCasesFor | ssz/flat_composite_types.py:38-58 | 20 List cases per element schema: the four fixed lengths first, then 16 at most 512 long |
| FlatComposite.ListBlocks | ssz/flat_composite_types.py:38-58 | one block of 20 List cases per element schema, in order |
| FlatComposite.FieldName | ssz/flat_composite_types.py:71 | a field name is "field" followed by its index |
| FlatComposite.FieldNameRoundTrip | ssz/flat_composite_types.py:71 | the index can be read back from its field name |
| FlatComposite.FieldNames | ssz/flat_composite_types.py:71 | n names, the k-th being field k |
| FlatComposite.FieldNamesDistinct | ssz/flat_composite_types.py:71 | the field names field0 ... field{n-1} are pairwise distinct |
| FlatComposite.RandomFieldMap | ssz/flat_composite_types.py:76-79 | one entry per field, named as given, its value drawn from that field's schema |
| FlatComposite.FlatContainerConforms | ssz/flat_composite_types.py:72-79 | drawn fields named field0 ... are a mapping the codec accepts for the Container |
| FlatComposite.ContainerCase | ssz/flat_composite_types.py:71-86 | a valid Container case whose value maps field0 ... to values drawn from each field's schema |
| FlatComposite.HomogenousCasesForLengths | ssz/flat_composite_types.py:70-86 | one homogeneous case per field count, in order, every field of schema e |
| FlatComposite.HomogenousCaseShape | ssz/flat_composite_types.py:70-86 | a homogeneous case for a field count has exactly that many fields, all of the one schema, and a value drawn field by field |
| FlatComposite.HomogenousCasesShape | ssz/flat_composite_types.py:70-86 | homogeneous cases built for a list of field counts have those counts, in order |
| FlatComposite.HomogenousLengthsShape | ssz/flat_composite_types.py:63-69 | cases for the counts 0, 1, then random ones of at most 32 have 0, 1, then at most 32 fields |
| FlatComposite.HomogenousCasesFor | ssz/flat_composite_types.py:61-86 | 18 homogeneous cases per field schema, with 0 and 1 fields first and at most 32 after |
| FlatComposite.HomogenousBlocks | ssz/flat_composite_types.py:61-86 | one block of 18 homogeneous cases per field schema, in order |
| FlatComposite.RandomFieldSedes | ssz/flat_composite_types.py:101 | n field schemas, each a flat element |
| FlatComposite.HeterogenousCase | ssz/flat_composite_types.py:99-117 | a valid Container of n flat fields whose value is drawn field by field from each field's own schema |
| FlatComposite.HeterogenousCasesForLengths | ssz/flat_composite_types.py:99-117 | one heterogeneous case per length, in order, the k-th with exactly the k-th length's number of fields |
| FlatComposite.HeterogenousCases | ssz/flat_composite_types.py:89-117 | 16 heterogeneous cases of at most 32 fields each, the k-th with the k-th drawn field count |
| FlatComposite.MakeVector | ssz/flat_composite_types.py:130 | py-ssz's Vector constructor, read as accepting only a schema then a length: it succeeds exactly then, and builds that Vector. This reading is an assumption about code outside the model |
| FlatComposite.VectorCase | ssz/flat_composite_types.py:129-138 | with the arguments in order, a valid Vector case of the given length whose value has that many drawn elements |
| FlatComposite.VectorCaseAsWritten | ssz/flat_composite_types.py:130 | with the arguments swapped as written, MakeVector rejects the pair, so under MakeVector's reading of the constructor every vector case fails before drawing |
| FlatComposite.VectorCasesForLengths | ssz/flat_composite_types.py:129-138 | one Vector case per length, in order |
| FlatComposite.VectorLengthsShape | ssz/flat_composite_types.py:122-128 | the vector lengths are 0, 1, then 16 of at most 512 |
| FlatComposite.VectorCasesFor | ssz/flat_composite_types.py:120-138 | 18 Vector cases per element schema, of lengths 0 and 1 first and at most 512 after |
| FlatComposite.VectorBlocks | ssz/flat_composite_types.py:120-138 | one block of 18 Vector cases per element schema, in order |
| FlatComposite.VectorCasesAsWritten | ssz/flat_composite_types.py:120-130 | as written, the vector cases fail at the first case |
| FlatComposite.FlatListSuite | ssz/flat_composite_types.py:141-147 | the flat list suite renders with 140 cases |
| FlatComposite.FlatContainerSuite | ssz/flat_composite_types.py:150-159 | the flat container suite renders with 142 cases: records 0 to 125 carry the homogeneous tags and records 126 to 141 the heterogeneous tags |
| FlatComposite.FlatVectorSuite | ssz/flat_composite_types.py:162-168 | with the Vector arguments in order, the flat vector suite renders with 126 cases |
| FlatComposite.FlatVectorSuiteAsWritten | ssz/flat_composite_types.py:162-168 | as written, the flat vector suite fails |
| UIntGenerators.BitSizesLength | ssz/uint_test_generators.py:22 | the last k widths are 8*(64-k+1) ... 512 bits, one per byte count |
| UIntGenerators.BitSizesShape | ssz/uint_test_generators.py:22 | BIT_SIZES is 64 sizes 8, 16, ..., 512, strictly ascending |
| UIntGenerators.BoundsAreTight | ssz/uint_test_generators.py:111-128 | 0 and 2^b - 1 are accepted for a UInt of b bits, while -1 and 2^b are not; an int is accepted exactly when in [0, 2^b) |
| UIntGenerators.BoundCases | ssz/uint_test_generators.py:108-119 | two valid cases per width: 0 tagged lower bound, then 2^b - 1 tagged upper bound, each with its encoding |
| UIntGenerators.OutOfBoundsCases | ssz/uint_test_generators.py:125-134 | two invalid cases per width, -1 tagged uint_underflow then 2^b tagged uint_overflow, each with a value the codec rejects, no serial and no description |
| UIntGenerators.BoundsBlocks | ssz/uint_test_generators.py:105-119 | one bounds block per width, in ascending width order |
| UIntGenerators.OutOfBoundsBlocks | ssz/uint_test_generators.py:122-134 | one out-of-bounds block per width, in ascending width order, each an underflow case then an overflow case with those tags |
| UIntGenerators.InBoundsAdmissible | ssz/uint_test_generators.py:105-119 | the bounds cases number 2 per width, all pass the renderer's check, and all are valid |
| UIntGenerators.OutOfBoundsAdmissible | ssz/uint_test_generators.py:122-134 | the out-of-bounds cases number 2 per width, all pass the renderer's check, and all are invalid with no serialisation |
| UIntGenerators.BoundsSuiteCases | ssz/uint_test_generators.py:29 | 4 cases per width, all admissible: the first half (2 per width) are valid bounds cases, the second half invalid out-of-bounds cases with no serialisation |
| UIntGenerators.RandomUIntCase | ssz/uint_test_generators.py:68-79 | a valid random case of the width, with its encoding |
| UIntGenerators.RandomUIntCaseCovers | ssz/uint_test_generators.py:71 | every value in [0, 2^b) is drawn by some draw |
| UIntGenerators.RandomUIntCases | ssz/uint_test_generators.py:70-79 | exactly `count` random cases of the width |
| UIntGenerators.RandomUIntBlocks | ssz/uint_test_generators.py:63-79 | one block of random cases per width, in ascending width order |
| UIntGenerators.RandomCasesValid | ssz/uint_test_generators.py:63-79 | 10 random cases per width, all valid with the random tags |
| UIntGenerators.RandomSuiteCases | ssz/uint_test_generators.py:41 | 10 random cases per width, all admissible |
| UIntGenerators.InsertSorted | ssz/uint_test_generators.py:88-94 | inserting into a strictly ascending list keeps it strictly ascending and adds exactly the new element |
| UIntGenerators.SortedSet | ssz/uint_test_generators.py:88-94 | `sorted(set(xs))` is strictly ascending with the same elements as xs |
| UIntGenerators.SortedUnique | ssz/uint_test_generators.py:88-94 | two strictly ascending lists with the same elements are equal |
| UIntGenerators.WrongLengths | ssz/uint_test_generators.py:88-94 | the tried lengths never include the width itself and are all candidates |
| UIntGenerators.WrongLengthsSorted | ssz/uint_test_generators.py:88-94 | the tried lengths are `sorted(set(...))` of {0, L//2, L-1, L+1, 2L}: strictly ascending, holding exactly the candidates |
| UIntGenerators.WrongLengthsCount | ssz/uint_test_generators.py:88-94 | there are 2 tried lengths for one byte, 4 for two bytes and 5 otherwise |
| UIntGenerators.WrongLengthCase | ssz/uint_test_generators.py:96-102 | an invalid case with no value and random bytes of exactly the length as serial, tagged wrong_length |
| UIntGenerators.WrongLengthRepeats | ssz/uint_test_generators.py:96-102 | exactly `count` wrong-length cases of the one length |
| UIntGenerators.WrongLengthBlocks | ssz/uint_test_generators.py:95-102 | one block per tried length, in order |
| UIntGenerators.WrongLengthBlocksCount | ssz/uint_test_generators.py:95-102 | blocks of three, one per tried length, hold three cases per tried length |
| UIntGenerators.WrongLengthBlocksShape | ssz/uint_test_generators.py:86-102 | every case in the blocks of a width's tried lengths is admissible, invalid, with no value, and a serial whose length is a tried one and never the width |
| UIntGenerators.WrongLengthCasesFor | ssz/uint_test_generators.py:86-102 | the cases of one width: three per tried length, each a wrong-length case of that width |
| UIntGenerators.WrongLengthSizeBlocks | ssz/uint_test_generators.py:82-102 | one block of wrong-length cases per width, in ascending width order |
| UIntGenerators.WrongLengthSizeBlocksCount | ssz/uint_test_generators.py:82-102 | the blocks hold three cases per tried length over all widths |
| UIntGenerators.WrongLengthSizeBlocksUnfold | ssz/uint_test_generators.py:82-102 | the first width's block contributes three cases per its tried lengths to the total |
| UIntGenerators.WrongLengthTotalAll | ssz/uint_test_generators.py:82-102 | the wrong-length suite holds 948 cases |
| UIntGenerators.WrongLengthSuiteCases | ssz/uint_test_generators.py:82-102 | every wrong-length case is wrong for its own width and admissible |
| UIntGenerators.BoundsRunOver | ssz/uint_test_generators.py:29-36 | passing the tag as `version` renders 4 cases per width, records in the first half marked valid and the rest invalid; an undeclared keyword fails, and nothing is drawn |
| UIntGenerators.BoundsRun | ssz/uint_test_generators.py:29-36 | passing the tag as `version` renders the bounds suite with 256 cases, records 0 to 127 valid and 128 to 255 invalid; an undeclared keyword fails |
| UIntGenerators.UIntBoundsTest | ssz/uint_test_generators.py:27-36 | with `version=`, the seeded bounds suite renders 256 cases, records 0 to 127 valid and 128 to 255 invalid, and leaves the outer state unchanged |
| UIntGenerators.UIntBoundsTestAsWritten | ssz/uint_test_generators.py:27-36 | as written with `fork=`, the bounds suite fails |
| UIntGenerators.RandomRun | ssz/uint_test_generators.py:41-47 | passing the tag as `version` renders the random suite with 640 cases; an undeclared keyword fails |
| UIntGenerators.UIntRandomTest | ssz/uint_test_generators.py:39-48 | with `version=`, the seeded random suite renders 640 cases and leaves the outer state unchanged |
| UIntGenerators.UIntRandomTestAsWritten | ssz/uint_test_generators.py:39-48 | as written with `fork=`, the random suite fails |
| UIntGenerators.WrongLengthRun | ssz/uint_test_generators.py:53-59 | passing the tag as `version` renders the wrong-length suite with 948 cases; an undeclared keyword fails |
| UIntGenerators.UIntWrongLengthTest | ssz/uint_test_generators.py:51-60 | with `version=`, the seeded wrong-length suite renders 948 cases and leaves the outer state unchanged |
| UIntGenerators.UIntWrongLengthTestAsWritten | ssz/uint_test_generators.py:51-60 | as written with `fork=`, the wrong-length suite fails |
| BoolGenerators.TrueAndFalseCases | ssz/bool_test_generators.py:55-75 | two valid Boolean cases, True tagged true then False tagged false, each with its encoding |
| BoolGenerators.Fill | ssz/bool_test_generators.py:80-88 | `b * n` is n copies of the byte b |
| BoolGenerators.WrongLengthSerialsNeverOneByte | ssz/bool_test_generators.py:78-93 | there are 14 wrong-length serials, none one byte long, none a Boolean encoding |
| BoolGenerators.WrongLengthSerialsDistinct | ssz/bool_test_generators.py:78-93 | the 14 wrong-length serials are pairwise distinct |
| BoolGenerators.WrongLengthCases | ssz/bool_test_generators.py:96-107 | one invalid Boolean case per serial, in order, with the serial and no value, tagged wrong_length |
| BoolGenerators.WrongLengthCasesInvalid | ssz/bool_test_generators.py:96-107 | the 14 wrong-length cases are invalid, their serials distinct and never a Boolean encoding |
| BoolGenerators.InvalidByteCases | ssz/bool_test_generators.py:110-122 | one invalid Boolean case per byte of range(2, 255), ascending, with the one-byte serial and no value, tagged invalid |
| BoolGenerators.InvalidBytesExactly | ssz/bool_test_generators.py:115-117 | 253 cases; a byte has a case exactly when it is not 0x00, 0x01 or 0xFF; no serial is a Boolean encoding; the bytes ascend |
| BoolGenerators.ValuesRun | ssz/bool_test_generators.py:19-28 | passing the tag as `version` renders 2 cases; an undeclared keyword fails; nothing is drawn |
| BoolGenerators.BoolTrueAndFalseTest | ssz/bool_test_generators.py:19-28 | with `version=`, the seeded suite renders 2 cases and leaves the outer state unchanged |
| BoolGenerators.BoolTrueAndFalseTestAsWritten | ssz/bool_test_generators.py:19-28 | as written with `fork=`, the suite fails |
| BoolGenerators.WrongLengthRun | ssz/bool_test_generators.py:31-40 | passing the tag as `version` renders 14 cases; an undeclared keyword fails |
| BoolGenerators.BoolWrongLengthTest | ssz/bool_test_generators.py:31-40 | with `version=`, the seeded suite renders 14 cases and leaves the outer state unchanged |
| BoolGenerators.BoolWrongLengthTestAsWritten | ssz/bool_test_generators.py:31-40 | as written with `fork=`, the suite fails |
| BoolGenerators.InvalidByteRun | ssz/bool_test_generators.py:43-52 | passing the tag as `version` renders 253 cases; an undeclared keyword fails |
| BoolGenerators.BoolInvalidByteTest | ssz/bool_test_generators.py:43-52 | with `version=`, the seeded suite renders 253 cases and leaves the outer state unchanged |
| BoolGenerators.BoolInvalidByteTestAsWritten | ssz/bool_test_generators.py:43-52 | as written with `fork=`, the suite fails |
| BasicTypes.UIntSizesShape | ssz/basic_types.py:17 | the last k sizes are 8 * 2^(6-k) ... 8 * 2^5 |
| BasicTypes.UIntSizesValues | ssz/basic_types.py:17 | UINT_SIZES is 8, 16, 32, 64, 128, 256 |
| BasicTypes.MaxUIntAtLeastByte | ssz/basic_types.py:24 | the largest value of a UInt of at least one byte is at least 255 |
| BasicTypes.EdgeValuesDistinct | ssz/basic_types.py:26-31 | the four edge values 0, 1, max-1, max are in range and pairwise distinct |
| BasicTypes.RandomValues | ssz/basic_types.py:31-33 | exactly `count` values, each in [0, max] |
| BasicTypes.UIntValues | ssz/basic_types.py:24-33 | 20 values: 0, 1, max-1, max, then 16 random ones, all in [0, max] |
| BasicTypes.UIntValuesCover | ssz/basic_types.py:32 | every value in [0, max] is the first random value for some draw |
| BasicTypes.UIntCases | ssz/basic_types.py:35-43 | one valid UInt case per value, in order, each with its encoding, tagged basic/uint |
| BasicTypes.UIntBlock | ssz/basic_types.py:22-43 | the 20 cases of one width, the edge values first, all valid |
| BasicTypes.UIntBlocks | ssz/basic_types.py:21-43 | one block per width, the j-th of 2^j bytes |
| BasicTypes.UIntBlocksFollowSizes | ssz/basic_types.py:22-24 | block j is the UInt whose bit size is UINT_SIZES[j] |
| BasicTypes.UIntSuiteCases | ssz/basic_types.py:21-43 | 20 cases per width, all valid and admissible |
| BasicTypes.UIntTest | ssz/basic_types.py:46-52 | the basic UInt suite renders with 120 cases |
| BasicTypes.BoolCases | ssz/basic_types.py:55-63 | two valid Boolean cases, True then False, tagged basic/bool |
| BasicTypes.BoolTest | ssz/basic_types.py:66-72 | the basic Boolean suite renders with 2 cases |

## Left out

- Writing the suites out as YAML, and any file output. The model stops at the suite document.
- The codec's `encode` is the parameter `enc`, not the SSZ encoding. Whether a serial decodes back to its value is the codec's business, and the model says nothing about it.
- Python's Mersenne Twister: the stream of seed n is the parameter `mt(n)`. Draws are reduced to a range with `%`, so uniformity is not modelled.
- `random.random() < p` is a coin read from one draw, not a float comparison.
- Lazy generators and `to_tuple`/`to_dict`: cases are produced as a whole sequence and then rendered. The outcome is the same, because every case is admissible and nothing is drawn during rendering.
- `render_value` and `render_type_definition` on objects that are not values or schemas (their `ValueError`/`TypeError` branches) cannot arise: the `Value` and `Sedes` datatypes are closed. Strings are not values, so the endless recursion `render_value` would enter on a `str` is out of reach.
- The Container schema is positional. The flat generators' `(name, sedes)` pairs keep only the sedes, and the names survive as the keys of the mapping value.
- `get_random_vector_length` in ssz/nested_composite_types.py is never called, and is not modelled.
- Draws.RandInt: a draw on an exhausted stream reads as 0, rather than the generator going on forever.
- BasicTypes.UIntTest: takes the module-level `Random(0)` stream as an argument, and states only that the stream is consumed, not how far.
- FlatComposite.FlatListSuite: takes the module-level `Random(0)` stream as an argument. It is shown to render with 140 cases, but the drawn lengths are not stated in the suite's own contract.
- FlatComposite.FlatContainerSuite: takes the module-level `Random(0)` stream as an argument. It is shown to render with its cases split by tags, but the drawn field counts are not stated in the suite's own contract.
- FlatComposite.FlatVectorSuite: takes the module-level `Random(0)` stream as an argument. It is shown to render with 126 cases, but the drawn lengths are not stated in the suite's own contract.
- FlatComposite.MakeVector: py-ssz's `Vector` class is not part of this model. MakeVector assumes its constructor rejects any call whose first argument is not a schema or whose second is not a length. VectorCaseAsWritten, VectorCasesAsWritten and FlatVectorSuiteAsWritten rest on that assumption. If the constructor accepted the swapped pair, the as-written cases would instead draw values.

## Findings

| source | as written | input that shows it | evidently intended | confidence | as-written member | corrected member |
|---|---|---|---|---|---|---|
| ssz/renderers.py:91-92 | `yield description` yields the bare string to `to_dict` | any valid case with `description="abc"` | yield the pair ("description", description) | not executed | Renderers.DescriptionRejectedAsWritten | Renderers.RenderTestCase |
| ssz/uint_test_generators.py:34 | `render_test(..., fork=...)`, but render_test declares `version` | any call of generate_uint_bounds_test (likewise lines 46 and 58) | pass the tag as `version=` | not executed | UIntGenerators.UIntBoundsTestAsWritten | UIntGenerators.UIntBoundsTest |
| ssz/bool_test_generators.py:26 | `render_test(..., fork=...)`, but render_test declares `version` | any call of generate_bool_true_and_false_test (likewise lines 38 and 50) | pass the tag as `version=` | not executed | BoolGenerators.BoolTrueAndFalseTestAsWritten | BoolGenerators.BoolTrueAndFalseTest |
| ssz/flat_composite_types.py:130 | `Vector(length, element_sedes)`: length first | the first case, element Boolean with length 0 | `Vector(element_sedes, length)`, as in ssz/nested_composite_types.py:85 | not executed | FlatComposite.FlatVectorSuiteAsWritten | FlatComposite.FlatVectorSuite |
