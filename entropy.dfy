/**
  The randomness the generator consumes. Each call of `crypto/rand.Read` into an
  8-byte buffer either fails or yields a word, which the source decodes as a
  little-endian uint64; here the outcomes of successive reads are a stream given
  as input, and a read past the end of the stream fails. Nothing is assumed about
  the words, so every property proved about generation holds for every stream.
 */
module Entropy {

  datatype Read = Word(value: nat) | ReadFailed

  type Stream = seq<Read>

  /** The outcome of the read made at position `p` of the stream. */
  function ReadAt(rng: Stream, p: nat): Read
  {
    if p < |rng| then rng[p] else ReadFailed
  }

  /** The word read at `p`, for stating what a read that succeeded produced. */
  function WordAt(rng: Stream, p: nat): nat
  {
    match ReadAt(rng, p)
    case Word(w) => w
    case ReadFailed => 0
  }

  /** The `count` reads starting at position `from` all succeed. */
  predicate ReadsSucceed(rng: Stream, from: nat, count: nat)
  {
    forall p :: from <= p < from + count ==> ReadAt(rng, p).Word?
  }

  /** How a word picks an index below `bound`: the source's `word % bound`. */
  function Reduce(word: nat, bound: nat): (j: nat)
    requires bound > 0
    ensures j < bound
  {
    word % bound
  }

  /** Consecutive runs of reads succeed together exactly when their union does. */
  lemma ReadsSucceedSplit(rng: Stream, from: nat, n: nat, m: nat)
    ensures ReadsSucceed(rng, from, n + m) <==> ReadsSucceed(rng, from, n) && ReadsSucceed(rng, from + n, m)
  {
  }

  /** One more successful read extends a run of successful reads. */
  lemma ReadsSucceedExtend(rng: Stream, from: nat, n: nat)
    requires ReadsSucceed(rng, from, n) && ReadAt(rng, from + n).Word?
    ensures ReadsSucceed(rng, from, n + 1)
  {
  }

  /** A failed read inside a run of reads makes the whole run fail. */
  lemma ReadFailureWithin(rng: Stream, from: nat, n: nat, outer: nat, m: nat)
    requires !ReadsSucceed(rng, from, n)
    requires outer <= from && from + n <= outer + m
    ensures !ReadsSucceed(rng, outer, m)
  {
  }
}
