/**
  The functional options of option.go. Each Go `Option` is a closure that writes one
  field of a generator (four for `WithMinRequirements`); here an option is a value,
  `Applied` is the write it performs, and `ApplyAll` is `NewGenerator`'s loop over
  them in call order. No option validates what it stores.
 */
module Options {
  import opened Outcomes
  import opened Configuration

  datatype Option =
    | WithLength(n: int)
    | WithUpperCase
    | WithoutUppercase
    | WithLowercase
    | WithoutLowercase
    | WithDigits
    | WithoutDigits
    | WithSymbols
    | WithoutSymbols
    | WithMinUppercase(n: int)
    | WithMinLowercase(n: int)
    | WithMinDigits(n: int)
    | WithMinSymbols(n: int)
    | WithMinRequirements(upper: int, lower: int, digits: int, symbols: int)

  /** The effect of running one option's closure on the fields `c`. */
  function Applied(c: Config, o: Option): Config
  {
    match o
    case WithLength(n) => c.(length := n)
    case WithUpperCase => c.(uppercase := true)
    case WithoutUppercase => c.(uppercase := false)
    case WithLowercase => c.(lowercase := true)
    case WithoutLowercase => c.(lowercase := false)
    case WithDigits => c.(digits := true)
    case WithoutDigits => c.(digits := false)
    case WithSymbols => c.(symbols := true)
    case WithoutSymbols => c.(symbols := false)
    case WithMinUppercase(n) => c.(minUppercase := n)
    case WithMinLowercase(n) => c.(minLowercase := n)
    case WithMinDigits(n) => c.(minDigits := n)
    case WithMinSymbols(n) => c.(minSymbols := n)
    case WithMinRequirements(u, l, d, s) =>
      c.(minDigits := d, minUppercase := u, minLowercase := l, minSymbols := s)
  }

  /** The options applied one after another, in the order given. */
  function ApplyAll(c: Config, opts: seq<Option>): Config
  {
    if opts == [] then c else Applied(ApplyAll(c, opts[..|opts| - 1]), opts[|opts| - 1])
  }

  /** One more option applied: the fold over `opts[..i + 1]` is the option `opts[i]` applied to
      the fold over `opts[..i]`. */
  lemma ApplyAllStep(c: Config, opts: seq<Option>, i: nat)
    requires i < |opts|
    ensures ApplyAll(c, opts[..i + 1]) == Applied(ApplyAll(c, opts[..i]), opts[i])
  {
    assert opts[..i + 1][..i] == opts[..i];
  }

  // A field-by-field view of a configuration, to state which fields an option writes.

  datatype Field =
    | Length | UseUppercase | UseLowercase | UseDigits | UseSymbols
    | MinUppercase | MinLowercase | MinDigits | MinSymbols

  datatype Value = IntValue(i: int) | BoolValue(b: bool)

  function Get(c: Config, f: Field): Value
  {
    match f
    case Length => IntValue(c.length)
    case UseUppercase => BoolValue(c.uppercase)
    case UseLowercase => BoolValue(c.lowercase)
    case UseDigits => BoolValue(c.digits)
    case UseSymbols => BoolValue(c.symbols)
    case MinUppercase => IntValue(c.minUppercase)
    case MinLowercase => IntValue(c.minLowercase)
    case MinDigits => IntValue(c.minDigits)
    case MinSymbols => IntValue(c.minSymbols)
  }

  datatype Write = Keeps | Sets(v: Value)

  /** The table of writes: what option `o` stores into field `f`, if anything. */
  function Written(o: Option, f: Field): Write
  {
    match (o, f)
    case (WithLength(n), Length) => Sets(IntValue(n))
    case (WithUpperCase, UseUppercase) => Sets(BoolValue(true))
    case (WithoutUppercase, UseUppercase) => Sets(BoolValue(false))
    case (WithLowercase, UseLowercase) => Sets(BoolValue(true))
    case (WithoutLowercase, UseLowercase) => Sets(BoolValue(false))
    case (WithDigits, UseDigits) => Sets(BoolValue(true))
    case (WithoutDigits, UseDigits) => Sets(BoolValue(false))
    case (WithSymbols, UseSymbols) => Sets(BoolValue(true))
    case (WithoutSymbols, UseSymbols) => Sets(BoolValue(false))
    case (WithMinUppercase(n), MinUppercase) => Sets(IntValue(n))
    case (WithMinLowercase(n), MinLowercase) => Sets(IntValue(n))
    case (WithMinDigits(n), MinDigits) => Sets(IntValue(n))
    case (WithMinSymbols(n), MinSymbols) => Sets(IntValue(n))
    case (WithMinRequirements(u, _, _, _), MinUppercase) => Sets(IntValue(u))
    case (WithMinRequirements(_, l, _, _), MinLowercase) => Sets(IntValue(l))
    case (WithMinRequirements(_, _, d, _), MinDigits) => Sets(IntValue(d))
    case (WithMinRequirements(_, _, _, s), MinSymbols) => Sets(IntValue(s))
    case _ => Keeps
  }

  /** Each option stores exactly what the table says, unchecked, and leaves every other field alone. */
  lemma AppliedFollowsTable(c: Config, o: Option, f: Field)
    ensures Get(Applied(c, o), f) == (match Written(o, f) case Sets(v) => v case Keeps => Get(c, f))
  {
  }

  /** The value the last option in `opts` to write `f` stored there, or `initial` if none did. */
  function LastWrite(opts: seq<Option>, f: Field, initial: Value): Value
  {
    if opts == [] then initial
    else match Written(opts[|opts| - 1], f)
      case Sets(v) => v
      case Keeps => LastWrite(opts[..|opts| - 1], f, initial)
  }

  /** Applying options in call order: for every field, the last write wins. */
  lemma {:induction false} LastWriteWins(c: Config, opts: seq<Option>, f: Field)
    ensures Get(ApplyAll(c, opts), f) == LastWrite(opts, f, Get(c, f))
  {
    if opts != [] {
      LastWriteWins(c, opts[..|opts| - 1], f);
      AppliedFollowsTable(ApplyAll(c, opts[..|opts| - 1]), opts[|opts| - 1], f);
    }
  }

  /** Options applied after a prefix act on what the prefix left behind. */
  lemma {:induction false} ApplyAllConcat(c: Config, front: seq<Option>, back: seq<Option>)
    ensures ApplyAll(c, front + back) == ApplyAll(ApplyAll(c, front), back)
  {
    if back == [] {
      assert front + back == front;
    } else {
      assert (front + back)[..|front + back| - 1] == front + back[..|back| - 1];
      ApplyAllConcat(c, front, back[..|back| - 1]);
    }
  }

  /** `WithMinRequirements` does what the four single-minimum setters do one after another. */
  lemma MinRequirementsAsSingleSetters(c: Config, u: int, l: int, d: int, s: int)
    ensures Applied(c, WithMinRequirements(u, l, d, s))
         == ApplyAll(c, [WithMinUppercase(u), WithMinLowercase(l), WithMinDigits(d), WithMinSymbols(s)])
  {
    var opts := [WithMinUppercase(u), WithMinLowercase(l), WithMinDigits(d), WithMinSymbols(s)];
    assert opts[..1][..0] == [] && opts[..2][..1] == opts[..1];
    assert opts[..3][..2] == opts[..2] && opts[..4][..3] == opts[..3] && opts[..4] == opts;
    assert ApplyAll(c, opts[..1]) == c.(minUppercase := u);
    assert ApplyAll(c, opts[..2]) == c.(minUppercase := u, minLowercase := l);
    assert ApplyAll(c, opts[..3]) == c.(minUppercase := u, minLowercase := l, minDigits := d);
  }

  /** A contradictory pair resolves to its second member: disabling and then enabling
      uppercase leaves it enabled, and the defaults then still validate. */
  lemma DisableThenEnable()
    ensures ApplyAll(DefaultConfig(), [WithoutUppercase, WithUpperCase]).uppercase
    ensures ApplyAll(DefaultConfig(), [WithoutUppercase, WithUpperCase]).Validate().Pass?
  {
    assert [WithoutUppercase, WithUpperCase][..1] == [WithoutUppercase];
    assert [WithoutUppercase][..0] == [];
    assert ApplyAll(DefaultConfig(), [WithoutUppercase, WithUpperCase]) == DefaultConfig();
    DefaultConfigValid();
  }

  /** Setters do not validate: a negative length is stored as given, and only
      validation rejects it. */
  lemma NegativeLengthStoredThenRejected(n: int)
    requires n < 0
    ensures ApplyAll(DefaultConfig(), [WithLength(n)]) == DefaultConfig().(length := n)
    ensures DefaultConfig().(length := n).Validate() == Fail(LengthTooSmall(n))
  {
    assert [WithLength(n)][..0] == [];
    NonPositiveLengthFirst(DefaultConfig().(length := n));
  }

  /** The overflow of the sum of minimums reached through the setters: two options storing
      2^63 - 1 and 1 give fields that pass validation as written, though they break the
      intended rule that the minimums fit in the length. */
  lemma OverflowingOptionsAccepted()
    ensures ApplyAll(DefaultConfig(), [WithMinUppercase(Int64Max), WithMinLowercase(1)]).ValidateAsWritten() == Pass
    ensures !ApplyAll(DefaultConfig(), [WithMinUppercase(Int64Max), WithMinLowercase(1)]).Acceptable()
  {
    var opts := [WithMinUppercase(Int64Max), WithMinLowercase(1)];
    assert opts[..1] == [WithMinUppercase(Int64Max)] && opts[..1][..0] == [];
    assert ApplyAll(DefaultConfig(), opts[..1]) == DefaultConfig().(minUppercase := Int64Max);
    assert ApplyAll(DefaultConfig(), opts) == Config(16, true, true, true, true, Int64Max, 1, 0, 0);
    OverflowingMinimumsAccepted();
    ValidateMeaning(Config(16, true, true, true, true, Int64Max, 1, 0, 0));
  }
}
