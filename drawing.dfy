/**
  What generatePassEntry writes for a given stream of reads, and what a run of such
  entries, one after another, writes in total. Nothing here depends on the particular
  alphabets or on a configuration.
 */
module Drawing {
  import opened Charsets
  import opened Entropy

  /** The characters generatePassEntry writes when its `count` reads from `pos` succeed:
      character `k` is `alphabet[word % len(alphabet)]` for the `k`-th word read. */
  function Entry(alphabet: seq<char>, count: nat, rng: Stream, pos: nat): (r: seq<char>)
    requires count > 0 ==> |alphabet| > 0
    ensures |r| == count
    ensures forall k :: 0 <= k < count ==> r[k] == alphabet[Reduce(WordAt(rng, pos + k), |alphabet|)]
  {
    if count == 0 then []
    else Entry(alphabet, count - 1, rng, pos) + [alphabet[Reduce(WordAt(rng, pos + count - 1), |alphabet|)]]
  }

  /** Every character of an entry is one of its alphabet's, so the entry counts fully
      towards that alphabet. */
  lemma EntryCount(alphabet: seq<char>, count: nat, rng: Stream, pos: nat)
    requires count > 0 ==> |alphabet| > 0
    ensures CountOf(Entry(alphabet, count, rng, pos), alphabet) == count
  {
    var e := Entry(alphabet, count, rng, pos);
    assert forall k :: 0 <= k < |e| ==> e[k] in alphabet;
    CountOfAllIn(e, alphabet);
  }

  /** One entry of a run: `count` characters drawn from `alphabet`. */
  datatype Part = Part(alphabet: seq<char>, count: nat)

  /** No non-empty entry draws from an empty alphabet (the source's `% 0`). */
  predicate Drawable(parts: seq<Part>)
  {
    forall i :: 0 <= i < |parts| && parts[i].count > 0 ==> |parts[i].alphabet| > 0
  }

  /** The number of reads the first `n` entries of a run make. */
  function Reads(parts: seq<Part>, n: nat): nat
    requires n <= |parts|
  {
    if n == 0 then 0 else Reads(parts, n - 1) + parts[n - 1].count
  }

  /** The first `n` entries of `parts` written one after another, each reading on from
      where the previous one stopped. */
  function Segments(parts: seq<Part>, n: nat, rng: Stream): (r: seq<char>)
    requires Drawable(parts) && n <= |parts|
    ensures |r| == Reads(parts, n)
  {
    if n == 0 then []
    else Segments(parts, n - 1, rng) + Entry(parts[n - 1].alphabet, parts[n - 1].count, rng, Reads(parts, n - 1))
  }

  /** Each character of a run comes from `union` when every non-empty entry's alphabet lies in it. */
  lemma {:induction false} SegmentsWithin(parts: seq<Part>, n: nat, union: seq<char>, rng: Stream)
    requires Drawable(parts) && n <= |parts|
    requires forall i, ch :: 0 <= i < n && parts[i].count > 0 && ch in parts[i].alphabet ==> ch in union
    ensures forall k :: 0 <= k < |Segments(parts, n, rng)| ==> Segments(parts, n, rng)[k] in union
  {
    if n > 0 {
      SegmentsWithin(parts, n - 1, union, rng);
      var front := Segments(parts, n - 1, rng);
      var e := Entry(parts[n - 1].alphabet, parts[n - 1].count, rng, Reads(parts, n - 1));
      forall k | 0 <= k < |front| + |e| ensures (front + e)[k] in union {
        if k >= |front| {
          assert (front + e)[k] == e[k - |front|];
        }
      }
    }
  }

  /** Each entry of a run contributes its full count to its alphabet's count in the run. */
  lemma {:induction false} SegmentsCount(parts: seq<Part>, n: nat, i: nat, rng: Stream)
    requires Drawable(parts) && i < n <= |parts|
    ensures CountOf(Segments(parts, n, rng), parts[i].alphabet) >= parts[i].count
  {
    var last := parts[n - 1];
    var a := parts[i].alphabet;
    var e := Entry(last.alphabet, last.count, rng, Reads(parts, n - 1));
    CountOfConcat(Segments(parts, n - 1, rng), e, a);
    if i == n - 1 {
      EntryCount(last.alphabet, last.count, rng, Reads(parts, n - 1));
    } else {
      SegmentsCount(parts, n - 1, i, rng);
    }
  }

  /** A run's first `n` entries make no more reads than all of it. */
  lemma {:induction false} ReadsMonotone(parts: seq<Part>, n: nat)
    requires n <= |parts|
    ensures Reads(parts, n) <= Reads(parts, |parts|)
    decreases |parts| - n
  {
    if n < |parts| {
      ReadsMonotone(parts, n + 1);
    }
  }
}
