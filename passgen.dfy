/**
  The generator of passgen.go (with its `validate` from validate.go): a Generator
  object holding the nine fields, built from the defaults by applying options in
  call order and then validated; and generation in three steps: per-class minimum
  segments, a fill from the union alphabet, and a Fisher-Yates shuffle.
 */
module PassGen {
  import opened Outcomes
  import opened Charsets
  import opened Configuration
  import opened Options
  import opened Entropy
  import opened Drawing

  /** The errors the generator can surface. `Invalid` wraps a validation error (NewGenerator
      and the package-level Generate); `RandomRead` is a failed read in generatePassEntry or
      shuffleString; Generate wraps it as `EntryFailed` or `ShuffleFailed`. */
  datatype GenError = Invalid(cause: ValidationError) | RandomRead | EntryFailed | ShuffleFailed

  /** The number of iterations of Go's `for range count`. */
  function Iterations(count: int): nat
  {
    if count > 0 then count else 0
  }

  /** The number of reads shuffleString makes on a string of `n` characters:
      one for each `i` from `n - 1` down to 1. */
  function ShuffleReads(n: nat): nat
  {
    if n > 0 then n - 1 else 0
  }

  /** The union alphabet `charSets`: the enabled classes' characters in class order. */
  function UnionAlphabet(c: Config): seq<char>
  {
    (if c.uppercase then Upper else []) + (if c.lowercase then Lower else [])
      + (if c.digits then Digits else []) + (if c.symbols then Symbols else [])
  }

  /** A character is in the union alphabet exactly when some enabled class has it. */
  lemma UnionAlphabetMembers(c: Config, ch: char)
    ensures ch in UnionAlphabet(c) <==> exists cls :: c.Enabled(cls) && ch in ClassAlphabet(cls)
  {
    if ch in UnionAlphabet(c) {
      if c.uppercase && ch in Upper { assert c.Enabled(Uppercase) && ch in ClassAlphabet(Uppercase); }
      else if c.lowercase && ch in Lower { assert c.Enabled(Lowercase) && ch in ClassAlphabet(Lowercase); }
      else if c.digits && ch in Digits { assert c.Enabled(Digit) && ch in ClassAlphabet(Digit); }
      else { assert c.Enabled(Symbol) && ch in ClassAlphabet(Symbol); }
    }
  }

  /** The union alphabet is empty only when no class is enabled. */
  lemma UnionAlphabetNonEmpty(c: Config, cls: CharClass)
    requires c.Enabled(cls)
    ensures |UnionAlphabet(c)| > 0
  {
    AlphabetShape(cls);
  }

  /** The reads one of Generate's class blocks makes: the class's minimum, or none when
      the class is disabled or its minimum is not positive. */
  function BlockReads(use: bool, min: int): nat
  {
    if use then Iterations(min) else 0
  }

  /** The entries a validated configuration's Generate draws before shuffling: one per
      class block, in class order, then the fill from the union alphabet. */
  function Parts(c: Config): (parts: seq<Part>)
    requires c.Acceptable()
    ensures |parts| == 5 && Drawable(parts)
    ensures Reads(parts, 4) == c.TotalMin() && Reads(parts, 5) == c.length
  {
    AcceptableFields(c);
    AlphabetShape(Uppercase);
    AlphabetShape(Lowercase);
    AlphabetShape(Digit);
    AlphabetShape(Symbol);
    UnionAlphabetNonEmpty(c, FirstEnabled(c));
    var parts :=
      [Part(Upper, BlockReads(c.uppercase, c.minUppercase)), Part(Lower, BlockReads(c.lowercase, c.minLowercase)),
       Part(Digits, BlockReads(c.digits, c.minDigits)), Part(Symbols, BlockReads(c.symbols, c.minSymbols)),
       Part(UnionAlphabet(c), Iterations(c.length - c.TotalMin()))];
    assert BlockReads(c.uppercase, c.minUppercase) == c.minUppercase;
    assert Reads(parts, 1) == c.minUppercase;
    assert Reads(parts, 2) == c.minUppercase + c.minLowercase;
    assert Reads(parts, 4) == c.TotalMin();
    parts
  }

  /** What a validated configuration's Generate writes before shuffling. */
  function RawPassword(c: Config, rng: Stream): seq<char>
    requires c.Acceptable()
  {
    Segments(Parts(c), 5, rng)
  }

  /** What the repository's tests check of a generated password: the configured length,
      at least the minimum of each class, every character from an enabled class, and none
      from a disabled one. */
  predicate Conforms(c: Config, pass: seq<char>)
  {
    && |pass| == c.length
    && (forall cls :: CountOf(pass, ClassAlphabet(cls)) >= c.Min(cls))
    && (forall k :: 0 <= k < |pass| ==> pass[k] in UnionAlphabet(c))
    && (forall k, cls :: 0 <= k < |pass| && !c.Enabled(cls) ==> pass[k] !in ClassAlphabet(cls))
  }

  /** A string drawn from the union alphabet has no character of a disabled class. */
  lemma UnionExcludesDisabled(c: Config, pass: seq<char>)
    requires forall k :: 0 <= k < |pass| ==> pass[k] in UnionAlphabet(c)
    ensures forall k, cls :: 0 <= k < |pass| && !c.Enabled(cls) ==> pass[k] !in ClassAlphabet(cls)
  {
    forall k, cls | 0 <= k < |pass| && !c.Enabled(cls) ensures pass[k] !in ClassAlphabet(cls) {
      UnionAlphabetMembers(c, pass[k]);
      var owner :| c.Enabled(owner) && pass[k] in ClassAlphabet(owner);
      AlphabetsDisjoint(owner, cls, pass[k]);
    }
  }

  /** Every entry draws from an enabled class, so from the union alphabet. */
  lemma PartsWithinUnion(c: Config)
    requires c.Acceptable()
    ensures forall i, ch :: 0 <= i < 5 && Parts(c)[i].count > 0 && ch in Parts(c)[i].alphabet ==>
              ch in UnionAlphabet(c)
  {
    AcceptableFields(c);
    var parts := Parts(c);
    forall i, ch | 0 <= i < 5 && parts[i].count > 0 && ch in parts[i].alphabet ensures ch in UnionAlphabet(c) {
      if i < 4 {
        var cls := if i == 0 then Uppercase else if i == 1 then Lowercase else if i == 2 then Digit else Symbol;
        assert c.Enabled(cls) && ch in ClassAlphabet(cls);
        UnionAlphabetMembers(c, ch);
      }
    }
  }

  /** The union alphabet is ASCII, hence so is anything drawn from it. */
  lemma DrawnFromUnionIsAscii(c: Config, s: seq<char>)
    requires forall k :: 0 <= k < |s| ==> s[k] in UnionAlphabet(c)
    ensures IsAscii(s)
  {
    forall k | 0 <= k < |s| ensures s[k] as int < 0x80 {
      UnionAlphabetMembers(c, s[k]);
      var cls :| c.Enabled(cls) && s[k] in ClassAlphabet(cls);
      AlphabetInRange(cls, s[k]);
    }
  }

  /** What the class blocks draw is ASCII, so its byte length is its character count. */
  lemma MinimumsAscii(c: Config, rng: Stream)
    requires c.Acceptable()
    ensures IsAscii(Segments(Parts(c), 4, rng))
  {
    PartsWithinUnion(c);
    SegmentsWithin(Parts(c), 4, UnionAlphabet(c), rng);
    DrawnFromUnionIsAscii(c, Segments(Parts(c), 4, rng));
  }

  /** Before the shuffle the password already conforms, for every stream of reads. */
  lemma RawPasswordConforms(c: Config, rng: Stream)
    requires c.Acceptable()
    ensures Conforms(c, RawPassword(c, rng))
  {
    AcceptableFields(c);
    var parts := Parts(c);
    var raw := RawPassword(c, rng);
    PartsWithinUnion(c);
    SegmentsWithin(parts, 5, UnionAlphabet(c), rng);
    UnionExcludesDisabled(c, raw);
    forall cls ensures CountOf(raw, ClassAlphabet(cls)) >= c.Min(cls) {
      SegmentsCount(parts, 5, ClassIndex(cls), rng);
    }
  }

  /** Conformance is a property of the multiset of characters, so the shuffle keeps it. */
  lemma ConformsPermutation(c: Config, a: seq<char>, b: seq<char>)
    requires Conforms(c, a) && multiset(a) == multiset(b)
    ensures Conforms(c, b)
  {
    assert |b| == |multiset(b)| == |multiset(a)| == |a|;
    forall cls ensures CountOf(b, ClassAlphabet(cls)) >= c.Min(cls) {
      CountOfPermutation(a, b, ClassAlphabet(cls));
    }
    forall k | 0 <= k < |b| ensures b[k] in a {
      assert b[k] in multiset(b);
    }
  }

  /** generatePassEntry: `count` reads, each turned into one character of `alphabet`;
      the first failed read abandons the entry. */
  method GeneratePassEntry(alphabet: seq<char>, count: int, rng: Stream, pos: nat)
    returns (entry: string, err: Outcome<GenError>)
    requires count > 0 ==> |alphabet| > 0
    ensures err.Pass? <==> ReadsSucceed(rng, pos, Iterations(count))
    ensures err.Pass? ==> entry == Entry(alphabet, Iterations(count), rng, pos)
    ensures err.Fail? ==> entry == "" && err == Fail(RandomRead)
  {
    var sb: string := "";
    for i := 0 to Iterations(count)
      invariant sb == Entry(alphabet, i, rng, pos)
      invariant ReadsSucceed(rng, pos, i)
    {
      var r := ReadAt(rng, pos + i);
      if r.ReadFailed? {
        ReadFailureWithin(rng, pos + i, 1, pos, Iterations(count));
        return "", Fail(RandomRead);
      }
      ReadsSucceedSplit(rng, pos, i, 1);
      var idx := Reduce(r.value, |alphabet|);
      sb := sb + [alphabet[idx]];
    }
    return sb, Pass;
  }

  /** `s` with the elements at `i` and `j` exchanged. */
  function Swapped<T>(s: seq<T>, i: nat, j: nat): seq<T>
    requires i < |s| && j < |s|
  {
    s[i := s[j]][j := s[i]]
  }

  /** Exchanging two elements keeps the multiset. */
  lemma SwappedPermutes<T>(s: seq<T>, i: nat, j: nat)
    requires i < |s| && j < |s|
    ensures multiset(Swapped(s, i, j)) == multiset(s)
  {
  }

  /** The swap partner shuffleString draws for position `i` of a string of `n` characters:
      the read at step `n - 1 - i` reduced modulo `i + 1`, so it lies in `[0, i]`. */
  function SwapIndex(rng: Stream, pos: nat, n: nat, i: nat): (j: nat)
    requires i < n
    ensures j <= i
  {
    Reduce(WordAt(rng, pos + (n - 1 - i)), i + 1)
  }

  /** The string after shuffleString's first `k` swaps: step `k` swaps position `|s| - k`
      with the partner drawn from the `k`-th read. */
  function ShuffledSteps(s: seq<char>, k: nat, rng: Stream, pos: nat): (r: seq<char>)
    requires k <= ShuffleReads(|s|)
    ensures |r| == |s|
  {
    if k == 0 then s
    else Swapped(ShuffledSteps(s, k - 1, rng, pos), |s| - k, SwapIndex(rng, pos, |s|, |s| - k))
  }

  /** What shuffleString returns when all its reads, starting at `pos`, succeed. */
  function FisherYates(s: seq<char>, rng: Stream, pos: nat): seq<char>
  {
    ShuffledSteps(s, ShuffleReads(|s|), rng, pos)
  }

  /** One swap of the shuffle keeps the multiset. */
  lemma StepPermutes(s: seq<char>, k: nat, rng: Stream, pos: nat)
    requires 0 < k <= ShuffleReads(|s|)
    ensures multiset(ShuffledSteps(s, k, rng, pos)) == multiset(ShuffledSteps(s, k - 1, rng, pos))
  {
    SwappedPermutes(ShuffledSteps(s, k - 1, rng, pos), |s| - k, SwapIndex(rng, pos, |s|, |s| - k));
  }

  /** The shuffle is a permutation, whatever the words read. */
  lemma FisherYatesPermutes(s: seq<char>, rng: Stream, pos: nat)
    ensures |FisherYates(s, rng, pos)| == |s|
    ensures multiset(FisherYates(s, rng, pos)) == multiset(s)
  {
    var k := 0;
    while k < ShuffleReads(|s|)
      invariant k <= ShuffleReads(|s|)
      invariant multiset(ShuffledSteps(s, k, rng, pos)) == multiset(s)
    {
      StepPermutes(s, k + 1, rng, pos);
      k := k + 1;
    }
  }

  /** The words decide the order: on two characters an even word swaps them and an odd one
      leaves them in place. */
  lemma TwoCharacterShuffle(w: nat)
    ensures FisherYates("ab", [Word(w)], 0) == (if w % 2 == 0 then "ba" else "ab")
  {
    var j := SwapIndex([Word(w)], 0, 2, 1);
    assert j == w % 2;
    assert ShuffleReads(|"ab"|) == 1;
    assert ShuffledSteps("ab", 0, [Word(w)], 0) == "ab";
    assert FisherYates("ab", [Word(w)], 0) == Swapped("ab", 1, j);
  }

  /** `runes[i], runes[j] = runes[j], runes[i]`, in place. */
  method Swap(a: array<char>, i: nat, j: nat)
    requires i < a.Length && j < a.Length
    modifies a
    ensures a[..] == Swapped(old(a[..]), i, j)
  {
    a[i], a[j] := a[j], a[i];
  }

  /** shuffleString: Fisher-Yates from the last index down to 1, swapping position `i`
      with `word % (i + 1)`; the first failed read abandons the shuffle. */
  method ShuffleString(s: string, rng: Stream, pos: nat) returns (pass: string, err: Outcome<GenError>)
    ensures err.Pass? <==> ReadsSucceed(rng, pos, ShuffleReads(|s|))
    ensures err.Pass? ==> pass == FisherYates(s, rng, pos)
    ensures err.Pass? ==> |pass| == |s| && multiset(pass) == multiset(s)
    ensures err.Fail? ==> pass == "" && err == Fail(RandomRead)
  {
    var runes := new char[|s|](k requires 0 <= k < |s| => s[k]);
    assert runes[..] == s;
    var i := |s| - 1;
    while i > 0
      invariant if |s| == 0 then i == -1 else 0 <= i < |s|
      invariant ReadsSucceed(rng, pos, |s| - 1 - i)
      invariant runes[..] == ShuffledSteps(s, |s| - 1 - i, rng, pos)
    {
      var r := ReadAt(rng, pos + (|s| - 1 - i));
      ghost var done := |s| - 1 - i;
      if r.ReadFailed? {
        ReadFailureWithin(rng, pos + done, 1, pos, |s| - 1);
        return "", Fail(RandomRead);
      }
      ReadsSucceedExtend(rng, pos, done);
      var j := Reduce(r.value, i + 1);
      assert j == SwapIndex(rng, pos, |s|, i);
      Swap(runes, i, j);
      i := i - 1;
    }
    FisherYatesPermutes(s, rng, pos);
    return runes[..], Pass;
  }

  class Generator {
    var length: int
    var uppercase: bool
    var lowercase: bool
    var digits: bool
    var symbols: bool
    var minUppercase: int
    var minLowercase: int
    var minDigits: int
    var minSymbols: int

    /** The struct literal NewGenerator starts from. */
    constructor ()
      ensures Snapshot() == DefaultConfig()
    {
      length := 16;
      uppercase, lowercase, digits, symbols := true, true, true, true;
      minUppercase, minLowercase, minDigits, minSymbols := 0, 0, 0, 0;
    }

    /** The generator's fields, read as a configuration value. */
    function Snapshot(): Config
      reads this
    {
      Config(length, uppercase, lowercase, digits, symbols, minUppercase, minLowercase, minDigits, minSymbols)
    }

    /** The invariant every generator NewGenerator hands out satisfies. */
    predicate Valid()
      reads this
    {
      Snapshot().Acceptable()
    }

    /** validate.go's `validate`: the same guards in the same order as config.go's, over the
        generator's own fields; it only reads them. */
    function Validate(): (r: Outcome<ValidationError>)
      reads this
      ensures r == Snapshot().Validate()
      ensures r.Pass? <==> Valid()
      ensures InInt64(minUppercase + minLowercase + minDigits + minSymbols) ==> r == Snapshot().ValidateAsWritten()
    {
      ValidateMeaning(Snapshot());
      if length <= 0 then Fail(LengthTooSmall(length))
      else if length > MaxLength then Fail(LengthTooLarge(length))
      else if minUppercase < 0 then Fail(NegativeMinimum(Uppercase, minUppercase))
      else if minLowercase < 0 then Fail(NegativeMinimum(Lowercase, minLowercase))
      else if minDigits < 0 then Fail(NegativeMinimum(Digit, minDigits))
      else if minSymbols < 0 then Fail(NegativeMinimum(Symbol, minSymbols))
      else if !uppercase && !lowercase && !digits && !symbols then Fail(NoClassEnabled)
      else if !uppercase && minUppercase > 0 then Fail(MinimumWithoutClass(Uppercase, minUppercase))
      else if !lowercase && minLowercase > 0 then Fail(MinimumWithoutClass(Lowercase, minLowercase))
      else if !digits && minDigits > 0 then Fail(MinimumWithoutClass(Digit, minDigits))
      else if !symbols && minSymbols > 0 then Fail(MinimumWithoutClass(Symbol, minSymbols))
      else if minUppercase + minLowercase + minDigits + minSymbols > length then
        Fail(MinimumsExceedLength(minUppercase + minLowercase + minDigits + minSymbols, length))
      else Pass
    }

    /** Running one option's closure on this generator. */
    method Apply(o: Option)
      modifies this
      ensures Snapshot() == Applied(old(Snapshot()), o)
    {
      match o
      case WithLength(n) => length := n;
      case WithUpperCase => uppercase := true;
      case WithoutUppercase => uppercase := false;
      case WithLowercase => lowercase := true;
      case WithoutLowercase => lowercase := false;
      case WithDigits => digits := true;
      case WithoutDigits => digits := false;
      case WithSymbols => symbols := true;
      case WithoutSymbols => symbols := false;
      case WithMinUppercase(n) => minUppercase := n;
      case WithMinLowercase(n) => minLowercase := n;
      case WithMinDigits(n) => minDigits := n;
      case WithMinSymbols(n) => minSymbols := n;
      case WithMinRequirements(u, l, d, s) =>
        minDigits := d;
        minUppercase := u;
        minLowercase := l;
        minSymbols := s;
    }

    /** Generator.Generate: generation reads the generator's fields and nothing else. */
    method Generate(rng: Stream) returns (pass: string, err: Outcome<GenError>)
      requires Valid()
      ensures err.Fail? ==> pass == ""
      ensures err == Fail(EntryFailed) <==> !ReadsSucceed(rng, 0, length)
      ensures err == Fail(ShuffleFailed) <==> ReadsSucceed(rng, 0, length) && !ReadsSucceed(rng, length, length - 1)
      ensures err.Pass? <==> ReadsSucceed(rng, 0, 2 * length - 1)
      ensures err.Pass? ==> pass == FisherYates(RawPassword(Snapshot(), rng), rng, length)
      ensures err.Pass? ==> multiset(pass) == multiset(RawPassword(Snapshot(), rng))
      ensures err.Pass? ==> Conforms(Snapshot(), pass)
    {
      pass, err := GenerateFrom(Snapshot(), rng);
    }
  }

  /** The body of Generator.Generate over the generator's fields `c`. The reads are made in
      order: `length` of them for the minimum segments and the fill together, then
      `length - 1` for the shuffle. A failed read stops generation with an empty password
      and no partial result. */
  method GenerateFrom(c: Config, rng: Stream) returns (pass: string, err: Outcome<GenError>)
    requires c.Acceptable()
    ensures err.Fail? ==> pass == ""
    ensures err == Fail(EntryFailed) <==> !ReadsSucceed(rng, 0, c.length)
    ensures err == Fail(ShuffleFailed) <==> ReadsSucceed(rng, 0, c.length) && !ReadsSucceed(rng, c.length, c.length - 1)
    ensures err.Pass? <==> ReadsSucceed(rng, 0, 2 * c.length - 1)
    ensures err.Pass? ==> pass == FisherYates(RawPassword(c, rng), rng, c.length)
    ensures err.Pass? ==> multiset(pass) == multiset(RawPassword(c, rng))
    ensures err.Pass? ==> Conforms(c, pass)
  {
    var rawPass, charSets, pos, e := DrawMinimums(c, rng);
    if e.Fail? {
      return "", e;
    }

    // strings.Builder.Len counts bytes; every alphabet is ASCII, so that is the character count.
    MinimumsAscii(c, rng);
    AsciiUtf8Len(rawPass);
    var remaining := c.length - Utf8Len(rawPass);

    if remaining > 0 {
      UnionAlphabetNonEmpty(c, FirstEnabled(c));
      var entry;
      entry, e := GeneratePassEntry(charSets, remaining, rng, pos);
      if e.Fail? {
        ReadFailureWithin(rng, pos, remaining, 0, c.length);
        return "", Fail(EntryFailed);
      }
      ReadsSucceedSplit(rng, 0, pos, remaining);
      rawPass := rawPass + entry;
    } else {
      assert rawPass + [] == rawPass;
    }
    assert rawPass == RawPassword(c, rng);

    var shuffled;
    shuffled, e := ShuffleString(rawPass, rng, c.length);
    if e.Fail? {
      return "", Fail(ShuffleFailed);
    }
    ReadsSucceedSplit(rng, 0, c.length, c.length - 1);
    RawPasswordConforms(c, rng);
    ConformsPermutation(c, rawPass, shuffled);
    return shuffled, Pass;
  }

  /** The four class blocks at the start of Generate, in class order. */
  method DrawMinimums(c: Config, rng: Stream) returns (rawPass: string, charSets: seq<char>, pos: nat, err: Outcome<GenError>)
    requires c.Acceptable()
    ensures err.Pass? ==> rawPass == Segments(Parts(c), 4, rng) && charSets == UnionAlphabet(c)
    ensures err.Pass? ==> pos == Reads(Parts(c), 4) && ReadsSucceed(rng, 0, pos)
    ensures err.Fail? ==> err == Fail(EntryFailed) && !ReadsSucceed(rng, 0, c.length)
  {
    ghost var parts := Parts(c);
    rawPass, charSets, pos := "", [], 0;
    ghost var pos0;

    pos0 := pos;
    rawPass, charSets, pos, err := ClassBlock(c.uppercase, Upper, c.minUppercase, rawPass, charSets, rng, pos);
    if err.Fail? {
      ReadsMonotone(parts, 1);
      ReadFailureWithin(rng, pos0, BlockReads(c.uppercase, c.minUppercase), 0, c.length);
      return;
    }
    ReadsSucceedSplit(rng, 0, pos0, BlockReads(c.uppercase, c.minUppercase));
    assert rawPass == Segments(parts, 1, rng) && pos == Reads(parts, 1);

    pos0 := pos;
    rawPass, charSets, pos, err := ClassBlock(c.lowercase, Lower, c.minLowercase, rawPass, charSets, rng, pos);
    if err.Fail? {
      ReadsMonotone(parts, 2);
      ReadFailureWithin(rng, pos0, BlockReads(c.lowercase, c.minLowercase), 0, c.length);
      return;
    }
    ReadsSucceedSplit(rng, 0, pos0, BlockReads(c.lowercase, c.minLowercase));
    assert rawPass == Segments(parts, 2, rng) && pos == Reads(parts, 2);

    pos0 := pos;
    rawPass, charSets, pos, err := ClassBlock(c.digits, Digits, c.minDigits, rawPass, charSets, rng, pos);
    if err.Fail? {
      ReadsMonotone(parts, 3);
      ReadFailureWithin(rng, pos0, BlockReads(c.digits, c.minDigits), 0, c.length);
      return;
    }
    ReadsSucceedSplit(rng, 0, pos0, BlockReads(c.digits, c.minDigits));
    assert rawPass == Segments(parts, 3, rng) && pos == Reads(parts, 3);

    pos0 := pos;
    rawPass, charSets, pos, err := ClassBlock(c.symbols, Symbols, c.minSymbols, rawPass, charSets, rng, pos);
    if err.Fail? {
      ReadsMonotone(parts, 4);
      ReadFailureWithin(rng, pos0, BlockReads(c.symbols, c.minSymbols), 0, c.length);
      return;
    }
    ReadsSucceedSplit(rng, 0, pos0, BlockReads(c.symbols, c.minSymbols));
    assert rawPass == Segments(parts, 4, rng) && pos == Reads(parts, 4);

    assert [] + (if c.uppercase then Upper else []) == (if c.uppercase then Upper else []);
  }

  /** Some class a validated configuration enables. */
  function FirstEnabled(c: Config): (cls: CharClass)
    requires c.Acceptable()
    ensures c.Enabled(cls)
  {
    AcceptableFields(c);
    if c.uppercase then Uppercase else if c.lowercase then Lowercase else if c.digits then Digit else Symbol
  }

  /** One of Generate's four class blocks: an enabled class's alphabet joins `charSets`,
      and a positive minimum draws that many of its characters onto `rawPass`. */
  method ClassBlock(use: bool, alphabet: seq<char>, min: int, rawPass: string, charSets: seq<char>,
                    rng: Stream, pos: nat)
    returns (rawPass': string, charSets': seq<char>, pos': nat, err: Outcome<GenError>)
    requires use && min > 0 ==> |alphabet| > 0
    ensures charSets' == charSets + (if use then alphabet else [])
    ensures err.Pass? <==> ReadsSucceed(rng, pos, BlockReads(use, min))
    ensures err.Pass? ==> rawPass' == rawPass + Entry(alphabet, BlockReads(use, min), rng, pos)
    ensures err.Pass? ==> pos' == pos + BlockReads(use, min)
    ensures err.Fail? ==> err == Fail(EntryFailed)
  {
    rawPass', charSets', pos', err := rawPass, charSets, pos, Pass;
    if use {
      charSets' := charSets + alphabet;
      if min > 0 {
        var entry, e := GeneratePassEntry(alphabet, min, rng, pos);
        if e.Fail? {
          return rawPass, charSets', pos, Fail(EntryFailed);
        }
        rawPass' := rawPass + entry;
        pos' := pos + min;
      }
    }
  }

  /** NewGenerator: the defaults, then every option in call order, then validation. */
  method NewGenerator(opts: seq<Option>) returns (g: Generator?, err: Outcome<GenError>)
    ensures err.Pass? <==> ApplyAll(DefaultConfig(), opts).Acceptable()
    ensures err.Fail? ==> g == null && err.error.Invalid? && ApplyAll(DefaultConfig(), opts).Validate() == Fail(err.error.cause)
    ensures err.Pass? ==> g != null && fresh(g) && g.Valid() && g.Snapshot() == ApplyAll(DefaultConfig(), opts)
    ensures opts == [] ==> err.Pass? && g != null && g.Snapshot() == DefaultConfig()
  {
    var gen := new Generator();
    for i := 0 to |opts|
      invariant gen.Snapshot() == ApplyAll(DefaultConfig(), opts[..i])
    {
      ApplyAllStep(DefaultConfig(), opts, i);
      gen.Apply(opts[i]);
    }
    assert opts[..|opts|] == opts;
    var verr := gen.Validate();
    if verr.Fail? {
      return null, Fail(Invalid(verr.error));
    }
    return gen, Pass;
  }

  /** The package-level Generate: a generator from the options, then one password. */
  method Generate(opts: seq<Option>, rng: Stream) returns (pass: string, err: Outcome<GenError>)
    ensures err.Fail? ==> pass == ""
    ensures !ApplyAll(DefaultConfig(), opts).Acceptable() ==>
      err.Fail? && err.error.Invalid? && ApplyAll(DefaultConfig(), opts).Validate() == Fail(err.error.cause)
    ensures ApplyAll(DefaultConfig(), opts).Acceptable() ==>
      (err.Pass? <==> ReadsSucceed(rng, 0, 2 * ApplyAll(DefaultConfig(), opts).length - 1))
    ensures err.Pass? ==> Conforms(ApplyAll(DefaultConfig(), opts), pass)
  {
    var g, e := NewGenerator(opts);
    if e.Fail? {
      return "", e;
    }
    pass, err := g.Generate(rng);
  }
}
