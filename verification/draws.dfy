/** The pseudorandom source as an explicit, finite stream of draws.

    Every call into Python's `random` module that the generators make
    (`randint`, `randrange`, `choice` and the `random() < p` coin) consumes
    exactly one draw from the front of the stream. An exhausted stream reads
    as an endless run of zero draws, so every generator is total. */
module Draws {

  type Stream = seq<nat>

  /** `rest` is what remains of `s` after some draws were taken from its front. */
  predicate IsSuffix(rest: Stream, s: Stream) {
    |rest| <= |s| && rest == s[|s| - |rest|..]
  }

  lemma SuffixTransitive(a: Stream, b: Stream, c: Stream)
    requires IsSuffix(a, b) && IsSuffix(b, c)
    ensures IsSuffix(a, c)
  {
    assert c[|c| - |b|..][|b| - |a|..] == c[|c| - |a|..];
  }

  /** Takes one draw; an exhausted stream yields 0 and stays exhausted. */
  function Next(s: Stream): (r: (nat, Stream))
    ensures IsSuffix(r.1, s)
    ensures |s| > 0 ==> |r.1| == |s| - 1
  {
    if |s| == 0 then (0, s) else (s[0], s[1..])
  }

  /** `random.randint(lo, hi)`: a value in the closed range [lo, hi]. */
  function RandInt(lo: int, hi: int, s: Stream): (r: (int, Stream))
    requires lo <= hi
    ensures lo <= r.0 <= hi
    ensures IsSuffix(r.1, s)
    ensures |s| > 0 ==> |r.1| == |s| - 1
  {
    var (d, rest) := Next(s);
    (lo + d % (hi - lo + 1), rest)
  }

  /** Every value of the range is produced by some draw. */
  lemma RandIntReachesEveryValue(lo: int, hi: int, v: int)
    requires lo <= v <= hi
    ensures RandInt(lo, hi, [v - lo]).0 == v
  {
  }

  /** `random.choice(xs)`: one of the elements of a non-empty sequence. */
  function Choice<T>(xs: seq<T>, s: Stream): (r: (T, Stream))
    requires |xs| > 0
    ensures r.0 in xs
    ensures IsSuffix(r.1, s)
    ensures |s| > 0 ==> |r.1| == |s| - 1
  {
    var (d, rest) := Next(s);
    (xs[d % |xs|], rest)
  }

  /** `random.choice((True, False))`. */
  function RandomBool(s: Stream): (r: (bool, Stream))
    ensures IsSuffix(r.1, s)
    ensures |s| > 0 ==> |r.1| == |s| - 1
  {
    Choice([true, false], s)
  }

  /** The coin `random.random() < 1 - 1/e`: a draw divisible by `e` (one in
      `e` of them) says stop, every other draw says go on. */
  predicate GoesOn(d: nat, e: nat) {
    e == 0 || d % e != 0
  }

  function Coin(e: nat, s: Stream): (r: (bool, Stream))
    requires e >= 1
    ensures IsSuffix(r.1, s)
    ensures r.0 ==> |s| > 0 && GoesOn(s[0], e) && r.1 == s[1..]
    ensures |s| > 0 ==> (r.0 <==> GoesOn(s[0], e))
  {
    var (d, rest) := Next(s);
    (GoesOn(d, e), rest)
  }

  /** How many draws of the stream the coin would read as "go on". */
  function GoOnCount(s: Stream, e: nat): nat {
    if |s| == 0 then 0
    else (if GoesOn(s[0], e) then 1 else 0) + GoOnCount(s[1..], e)
  }

  /** Dropping draws from the front never adds "go on" draws. */
  lemma {:induction false} GoOnCountSuffix(t: Stream, s: Stream, e: nat)
    requires IsSuffix(t, s)
    ensures GoOnCount(t, e) <= GoOnCount(s, e)
    decreases |s|
  {
    if |t| < |s| {
      assert IsSuffix(t, s[1..]) by {
        assert s[1..][|s| - 1 - |t|..] == s[|s| - |t|..];
      }
      GoOnCountSuffix(t, s[1..], e);
    }
  }
}
