/** ssz/_utils.py: scoping of the process-wide random source.

    The global state of Python's `random` module is modelled as the stream of
    draws it will hand out next, passed in and returned explicitly. Reseeding
    is the parameter `mt`, which maps a seed to the stream the Mersenne
    Twister produces from it; the twister itself is not part of this model. */
module RandomScope {
  import opened Wrappers
  import opened Schema
  import opened Draws

  /** `random_seed()` and `seed` reseed with this value. */
  const DEFAULT_SEED: int := 0

  /** A computation on the global random state: its outcome (an exception
      is a Failure) and the state it leaves behind. */
  type Action<T> = Stream -> (Result<T>, Stream)

  /** `with random_seed(seed): body`: the state is captured, reseeded, the
      body runs, and the captured state is put back in the `finally` clause,
      so the state afterwards is the state before whether the body returns
      or raises; the outcome is the body's, run from the reseeded state. */
  function RandomSeed<T>(mt: int -> Stream, seed: int, body: Action<T>, state: Stream): (r: (Result<T>, Stream))
    ensures r.1 == state
    ensures r.0 == body(mt(seed)).0
  {
    var original := state;
    var (outcome, _) := body(mt(seed));
    (outcome, original)
  }

  /** The `seed` decorator: the wrapped function runs inside
      `random_seed()` with the default seed and its result is returned
      unchanged. */
  function Seed<T>(mt: int -> Stream, fn: Action<T>, state: Stream): (r: (Result<T>, Stream))
    ensures r.1 == state
    ensures r.0 == fn(mt(DEFAULT_SEED)).0
  {
    RandomSeed(mt, DEFAULT_SEED, fn, state)
  }

  /** Two calls of a seeded function start from the same state, whatever
      happened before, so they draw the same numbers and return the same
      outcome; a suite run inside a seeded call leaves no trace on the
      global state. */
  lemma SeedReproducible<T>(mt: int -> Stream, fn: Action<T>, before1: Stream, before2: Stream)
    ensures Seed(mt, fn, before1).0 == Seed(mt, fn, before2).0
    ensures Seed(mt, fn, before1).1 == before1
  {
  }

  /** `get_random_bytes(length)`: exactly `length` bytes, byte k made from
      the k-th draw, consuming one draw per byte. */
  function GetRandomBytes(length: nat, s: Stream): (r: (Bytes, Stream))
    ensures |r.0| == length
    ensures IsSuffix(r.1, s)
    ensures |s| >= length ==> r.1 == s[length..]
    ensures forall k :: 0 <= k < length && k < |s| ==> r.0[k] == s[k] % 256
    decreases length
  {
    if length == 0 then ([], s)
    else
      var (b, rest) := RandInt(0, 255, s);
      var (bs, rest') := GetRandomBytes(length - 1, rest);
      SuffixTransitive(rest', rest, s);
      assert |s| > 0 ==> rest == s[1..];
      ([b] + bs, rest')
  }
}
