/** ssz/bool_test_generators.py: the three seeded Boolean suites: the two
    valid values, serials of the wrong length, and single bytes that are not
    the encoding of a Boolean.

    None of them draws from the random source, so the `seed` wrapper only
    shows in that the global state is left as it was. */
module BoolGenerators {
  import opened Wrappers
  import opened Schema
  import opened Draws
  import opened Renderers
  import opened RandomScope

  /** The tag every suite of this file passes to render_test. */
  const FORK: string := "phase0-0.2.0"

  const TRUE_TAGS: seq<string> := ["atomic", "bool", "true"]
  const FALSE_TAGS: seq<string> := ["atomic", "bool", "false"]
  const WRONG_LENGTH_TAGS: seq<string> := ["atomic", "bool", "wrong_length"]
  const INVALID_TAGS: seq<string> := ["atomic", "bool", "invalid"]

  const VALUES_TITLE: string := "Bool Values"
  const VALUES_SUMMARY: string := "The two valid values for a boolean"
  const WRONG_LENGTH_TITLE: string := "Bool Wrong Length"
  const WRONG_LENGTH_SUMMARY: string := "Byte strings of incorrect length"
  const INVALID_TITLE: string := "Bool Invalid Byte"
  const INVALID_SUMMARY: string := "Single byte values that are not 0x00 or 0x01"

  /** The Boolean encoding is one byte, 0x00 for false and 0x01 for true;
      every other byte string is not the encoding of a Boolean. */
  predicate IsBooleanEncoding(b: Bytes) {
    b == [0] || b == [1]
  }

  // ---------------------------------------------------------------------
  // The two valid values

  /** mk_bool_true_and_false_test_cases: True then False, each with its
      encoding and its own tag. */
  function TrueAndFalseCases(enc: (Value, Sedes) -> Bytes): (r: seq<CaseArgs>)
    ensures |r| == 2
    ensures r[0].sedes == Boolean && r[1].sedes == Boolean
    ensures ValidCase(r[0], enc, TRUE_TAGS) && r[0].value == Some(VBool(true))
    ensures ValidCase(r[1], enc, FALSE_TAGS) && r[1].value == Some(VBool(false))
  {
    var t := CaseArgs(Boolean, true, Some(VBool(true)), Some(enc(VBool(true), Boolean)), None, Some(TRUE_TAGS));
    var f := CaseArgs(Boolean, true, Some(VBool(false)), Some(enc(VBool(false), Boolean)), None, Some(FALSE_TAGS));
    [t, f]
  }

  // ---------------------------------------------------------------------
  // Wrong lengths

  /** `n` copies of the byte `b`, as `bytes * n`. */
  function Fill(b: byte, n: nat): (r: Bytes)
    ensures |r| == n
    ensures forall k :: 0 <= k < n ==> r[k] == b
    decreases n
  {
    if n == 0 then [] else [b] + Fill(b, n - 1)
  }

  /** WRONG_LENGTH_SERIALS: the empty string, runs of 0x00, 0x01 and 0xFF
      of two, three and five bytes, and four mixed two-byte strings. */
  const WRONG_LENGTH_SERIALS: seq<Bytes> := [
    [],
    Fill(0x00, 2), Fill(0x01, 2), Fill(0xFF, 2),
    Fill(0x00, 3), Fill(0x01, 3), Fill(0xFF, 3),
    Fill(0x00, 5), Fill(0x01, 5), Fill(0xFF, 5),
    [0x00, 0x01], [0x01, 0x00], [0x00, 0xFF], [0x01, 0xFF]
  ]

  /** No wrong-length serial is one byte long, so none can be a Boolean
      encoding. */
  lemma WrongLengthSerialsNeverOneByte()
    ensures |WRONG_LENGTH_SERIALS| == 14
    ensures forall i :: 0 <= i < |WRONG_LENGTH_SERIALS| ==>
              |WRONG_LENGTH_SERIALS[i]| != 1 && !IsBooleanEncoding(WRONG_LENGTH_SERIALS[i])
  {
    var w := WRONG_LENGTH_SERIALS;
    forall i | 0 <= i < |w| ensures |w[i]| in {0, 2, 3, 5} {
      if i == 0 { } else if i <= 3 { assert |w[i]| == 2; }
      else if i <= 6 { assert |w[i]| == 3; } else if i <= 9 { assert |w[i]| == 5; }
      else { assert |w[i]| == 2; }
    }
  }

  /** A short key that tells the serials apart: the length, the first
      byte and the last byte. */
  function SerialKey(b: Bytes): (int, int, int) {
    if |b| == 0 then (0, -1, -1) else (|b|, b[0] as int, b[|b| - 1] as int)
  }

  /** The fourteen serials are pairwise distinct. */
  lemma WrongLengthSerialsDistinct()
    ensures forall i, j :: 0 <= i < j < |WRONG_LENGTH_SERIALS| ==> WRONG_LENGTH_SERIALS[i] != WRONG_LENGTH_SERIALS[j]
  {
    var w := WRONG_LENGTH_SERIALS;
    var keys := [(0, -1, -1),
                 (2, 0, 0), (2, 1, 1), (2, 255, 255),
                 (3, 0, 0), (3, 1, 1), (3, 255, 255),
                 (5, 0, 0), (5, 1, 1), (5, 255, 255),
                 (2, 0, 1), (2, 1, 0), (2, 0, 255), (2, 1, 255)];
    forall i | 0 <= i < |w| ensures SerialKey(w[i]) == keys[i] {
      if 1 <= i <= 9 {
        var n := |w[i]|;
        assert w[i][0] == w[i][n - 1];
      }
    }
    assert forall i, j :: 0 <= i < j < |keys| ==> keys[i] != keys[j];
  }

  /** A wrong-length case: an invalid Boolean case carrying `serial` and
      no value, tagged wrong_length. */
  predicate WrongLengthCaseOf(c: CaseArgs, serial: Bytes) {
    && c.sedes == Boolean && !c.valid && c.value.None? && c.serial == Some(serial)
    && c.description.None? && c.tags == Some(WRONG_LENGTH_TAGS)
  }

  /** mk_bool_wrong_length_test_cases over `serials`: one case per serial,
      in order. */
  function WrongLengthCases(serials: seq<Bytes>): (r: seq<CaseArgs>)
    ensures |r| == |serials|
    ensures forall k :: 0 <= k < |r| ==> WrongLengthCaseOf(r[k], serials[k]) && Admissible(r[k])
  {
    seq(|serials|, k requires 0 <= k < |serials| =>
      CaseArgs(Boolean, false, None, Some(serials[k]), None, Some(WRONG_LENGTH_TAGS)))
  }

  /** Every wrong-length case of the suite is invalid with a serial that
      no Boolean encodes to, and each serial is used once. */
  lemma WrongLengthCasesInvalid()
    ensures var cs := WrongLengthCases(WRONG_LENGTH_SERIALS);
      && |cs| == 14
      && (forall k :: 0 <= k < |cs| ==>
            !cs[k].valid && cs[k].serial.Some? && |cs[k].serial.value| != 1
            && !IsBooleanEncoding(cs[k].serial.value))
      && (forall i, j :: 0 <= i < j < |cs| ==> cs[i].serial != cs[j].serial)
  {
    var cs := WrongLengthCases(WRONG_LENGTH_SERIALS);
    WrongLengthSerialsNeverOneByte();
    WrongLengthSerialsDistinct();
    assert forall k :: 0 <= k < |cs| ==> cs[k].serial == Some(WRONG_LENGTH_SERIALS[k]);
  }

  // ---------------------------------------------------------------------
  // Invalid bytes

  /** The byte range of the invalid-byte suite: `range(2, 255)`. */
  const FIRST_INVALID_BYTE: nat := 2
  const INVALID_BYTE_END: nat := 255

  /** An invalid-byte case: an invalid Boolean case whose serial is the one
      byte `b` and no value, tagged invalid. */
  predicate InvalidByteCaseOf(c: CaseArgs, b: byte) {
    && c.sedes == Boolean && !c.valid && c.value.None? && c.serial == Some([b])
    && c.description.None? && c.tags == Some(INVALID_TAGS)
  }

  /** mk_bool_invalid_byte_test_cases: one case per byte of
      `range(2, 255)`, ascending. */
  function InvalidByteCases(): (r: seq<CaseArgs>)
    ensures |r| == INVALID_BYTE_END - FIRST_INVALID_BYTE
    ensures forall k :: 0 <= k < |r| ==> InvalidByteCaseOf(r[k], FIRST_INVALID_BYTE + k) && Admissible(r[k])
  {
    seq(INVALID_BYTE_END - FIRST_INVALID_BYTE, k requires 0 <= k < INVALID_BYTE_END - FIRST_INVALID_BYTE =>
      CaseArgs(Boolean, false, None, Some([FIRST_INVALID_BYTE + k]), None, Some(INVALID_TAGS)))
  }

  /** The invalid-byte cases are the 253 one-byte serials 0x02 to 0xFE in
      ascending order: a single byte has a case exactly when it is neither
      0x00, 0x01 nor 0xFF, so no case is a Boolean encoding. */
  lemma InvalidBytesExactly(b: byte)
    ensures |InvalidByteCases()| == 253
    ensures (exists k :: 0 <= k < |InvalidByteCases()| && InvalidByteCases()[k].serial == Some([b]))
            <==> b != 0x00 && b != 0x01 && b != 0xFF
    ensures forall k :: 0 <= k < |InvalidByteCases()| ==>
              InvalidByteCases()[k].serial.Some? && !IsBooleanEncoding(InvalidByteCases()[k].serial.value)
    ensures forall i, j :: 0 <= i < j < |InvalidByteCases()| ==>
              InvalidByteCases()[i].serial.value[0] < InvalidByteCases()[j].serial.value[0]
  {
    var cs := InvalidByteCases();
    if b != 0x00 && b != 0x01 && b != 0xFF {
      assert cs[b - 2].serial == Some([b]);
    }
    if exists k :: 0 <= k < |cs| && cs[k].serial == Some([b]) {
      var k :| 0 <= k < |cs| && cs[k].serial == Some([b]);
      assert [b] == [k + 2];
    }
    forall k | 0 <= k < |cs| ensures !IsBooleanEncoding(cs[k].serial.value) {
      assert cs[k].serial.value == [k + 2];
    }
  }

  // ---------------------------------------------------------------------
  // Suites

  /** The body of generate_bool_true_and_false_test, passing the tag to
      render_test as `keyword`. It draws nothing. */
  function ValuesRun(enc: (Value, Sedes) -> Bytes, keyword: string, s: Stream): (r: (Result<Doc>, Stream))
    ensures keyword == "version" ==> r.0.Success? && CaseCount(r.0.value) == Some(2)
    ensures keyword !in RENDER_TEST_KEYWORDS ==> r.0.Failure?
    ensures r.1 == s
  {
    var cases := TrueAndFalseCases(enc);
    assert forall k :: 0 <= k < |cases| ==> Admissible(cases[k]);
    SuiteRun(VALUES_TITLE, VALUES_SUMMARY, keyword, FORK, cases, s)
  }

  function ValuesBody(enc: (Value, Sedes) -> Bytes, keyword: string): Action<Doc> {
    (s: Stream) => ValuesRun(enc, keyword, s)
  }

  /** generate_bool_true_and_false_test with the tag passed as `version`:
      the two valid cases, and the global random state left as it was. */
  function BoolTrueAndFalseTest(mt: int -> Stream, enc: (Value, Sedes) -> Bytes, state: Stream): (r: (Result<Doc>, Stream))
    ensures r.1 == state
    ensures r.0.Success? && CaseCount(r.0.value) == Some(2)
  {
    Seed(mt, ValuesBody(enc, "version"), state)
  }

  /** generate_bool_true_and_false_test as written: render_test has no
      `fork` parameter, so the call raises before any document is built. */
  function BoolTrueAndFalseTestAsWritten(mt: int -> Stream, enc: (Value, Sedes) -> Bytes, state: Stream): (r: (Result<Doc>, Stream))
    ensures r.1 == state
    ensures r.0.Failure?
  {
    Seed(mt, ValuesBody(enc, "fork"), state)
  }

  /** The body of generate_bool_wrong_length_test. */
  function WrongLengthRun(keyword: string, s: Stream): (r: (Result<Doc>, Stream))
    ensures keyword == "version" ==> r.0.Success? && CaseCount(r.0.value) == Some(14)
    ensures keyword !in RENDER_TEST_KEYWORDS ==> r.0.Failure?
    ensures r.1 == s
  {
    SuiteRun(WRONG_LENGTH_TITLE, WRONG_LENGTH_SUMMARY, keyword, FORK, WrongLengthCases(WRONG_LENGTH_SERIALS), s)
  }

  function WrongLengthBody(keyword: string): Action<Doc> {
    (s: Stream) => WrongLengthRun(keyword, s)
  }

  /** generate_bool_wrong_length_test with the tag passed as `version`:
      one invalid case per wrong-length serial. */
  function BoolWrongLengthTest(mt: int -> Stream, state: Stream): (r: (Result<Doc>, Stream))
    ensures r.1 == state
    ensures r.0.Success? && CaseCount(r.0.value) == Some(14)
  {
    Seed(mt, WrongLengthBody("version"), state)
  }

  /** generate_bool_wrong_length_test as written. */
  function BoolWrongLengthTestAsWritten(mt: int -> Stream, state: Stream): (r: (Result<Doc>, Stream))
    ensures r.1 == state
    ensures r.0.Failure?
  {
    Seed(mt, WrongLengthBody("fork"), state)
  }

  /** The body of generate_bool_invalid_byte_test. */
  function InvalidByteRun(keyword: string, s: Stream): (r: (Result<Doc>, Stream))
    ensures keyword == "version" ==> r.0.Success? && CaseCount(r.0.value) == Some(253)
    ensures keyword !in RENDER_TEST_KEYWORDS ==> r.0.Failure?
    ensures r.1 == s
  {
    SuiteRun(INVALID_TITLE, INVALID_SUMMARY, keyword, FORK, InvalidByteCases(), s)
  }

  function InvalidByteBody(keyword: string): Action<Doc> {
    (s: Stream) => InvalidByteRun(keyword, s)
  }

  /** generate_bool_invalid_byte_test with the tag passed as `version`:
      one invalid case per byte from 0x02 to 0xFE. */
  function BoolInvalidByteTest(mt: int -> Stream, state: Stream): (r: (Result<Doc>, Stream))
    ensures r.1 == state
    ensures r.0.Success? && CaseCount(r.0.value) == Some(253)
  {
    Seed(mt, InvalidByteBody("version"), state)
  }

  /** generate_bool_invalid_byte_test as written. */
  function BoolInvalidByteTestAsWritten(mt: int -> Stream, state: Stream): (r: (Result<Doc>, Stream))
    ensures r.1 == state
    ensures r.0.Failure?
  {
    Seed(mt, InvalidByteBody("fork"), state)
  }
}
