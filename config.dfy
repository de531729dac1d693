/**
  The nine configuration fields (a length, four class switches and four per-class
  minimums), the defaults, and the ordered validation of config.go. The Generator
  of passgen.go has the same nine fields and reads them out as a `Config` value.
 */
module Configuration {
  import opened Outcomes
  import opened Charsets

  const MaxLength := 10000

  /** The range of Go's `int` on a 64-bit platform. */
  const Int64Min := -0x8000_0000_0000_0000
  const Int64Max := 0x7fff_ffff_ffff_ffff
  const Modulus64 := 0x1_0000_0000_0000_0000

  predicate InInt64(x: int)
  {
    Int64Min <= x <= Int64Max
  }

  /** The 64-bit two's-complement value of an exact integer result: the value in range
      that is congruent to `x` modulo 2^64. */
  function Wrap64(x: int): (r: int)
    ensures InInt64(r)
    ensures (r - x) % Modulus64 == 0
    ensures InInt64(x) ==> r == x
  {
    (x - Int64Min) % Modulus64 + Int64Min
  }

  datatype Config = Config(
    length: int,
    uppercase: bool,
    lowercase: bool,
    digits: bool,
    symbols: bool,
    minUppercase: int,
    minLowercase: int,
    minDigits: int,
    minSymbols: int)
  {
    function Enabled(cls: CharClass): bool
    {
      match cls
      case Uppercase => uppercase
      case Lowercase => lowercase
      case Digit => digits
      case Symbol => symbols
    }

    function Min(cls: CharClass): int
    {
      match cls
      case Uppercase => minUppercase
      case Lowercase => minLowercase
      case Digit => minDigits
      case Symbol => minSymbols
    }

    function TotalMin(): int
    {
      minUppercase + minLowercase + minDigits + minSymbols
    }

    /** The invariant set a generator must satisfy, stated rule by rule. */
    predicate Acceptable()
    {
      && 1 <= length <= MaxLength
      && (forall cls :: Min(cls) >= 0)
      && (exists cls :: Enabled(cls))
      && (forall cls :: Min(cls) > 0 ==> Enabled(cls))
      && TotalMin() <= length
    }

    /** `e` is a truthful report of a rule this configuration breaks, carrying the offending values. */
    predicate Reports(e: ValidationError)
    {
      match e
      case LengthTooSmall(n) => n == length && length <= 0
      case LengthTooLarge(n) => n == length && length > MaxLength
      case NegativeMinimum(cls, m) => m == Min(cls) && m < 0
      case NoClassEnabled => forall cls :: !Enabled(cls)
      case MinimumWithoutClass(cls, m) => m == Min(cls) && m > 0 && !Enabled(cls)
      case MinimumsExceedLength(total, n) => total == TotalMin() && n == length && total > length
    }

    /** The guard chain of `validate`, in its fixed order, the first failing guard winning;
        `total` is the sum of minimums the last guard compares with the length. */
    function Guards(total: int): Outcome<ValidationError>
    {
      if length <= 0 then Fail(LengthTooSmall(length))
      else if length > MaxLength then Fail(LengthTooLarge(length))
      else if minUppercase < 0 then Fail(NegativeMinimum(Uppercase, minUppercase))
      else if minLowercase < 0 then Fail(NegativeMinimum(Lowercase, minLowercase))
      else if minDigits < 0 then Fail(NegativeMinimum(Digit, minDigits))
      else if minSymbols < 0 then Fail(NegativeMinimum(Symbol, minSymbols))
      else if !uppercase && !lowercase && !digits && !symbols then Fail(NoClassEnabled)
      else if !uppercase && minUppercase > 0 then Fail(MinimumWithoutClass(Uppercase, minUppercase))
      else if !lowercase && minLowercase > 0 then Fail(MinimumWithoutClass(Lowercase, minLowercase))
      else if !digits && minDigits > 0 then Fail(MinimumWithoutClass(Digit, minDigits))
      else if !symbols && minSymbols > 0 then Fail(MinimumWithoutClass(Symbol, minSymbols))
      else if total > length then Fail(MinimumsExceedLength(total, length))
      else Pass
    }

    /** config.go's `validate` comparing the true sum of the minimums: what its checks intend,
        and the validation the rest of the model uses. */
    function Validate(): Outcome<ValidationError>
    {
      Guards(TotalMin())
    }

    /** config.go's `validate` as written: `totalMin` is a 64-bit `int`, so the sum wraps.
        Two's-complement addition is associative, so adding the four minimums one by one
        wraps to the same value as wrapping their exact sum. */
    function ValidateAsWritten(): Outcome<ValidationError>
    {
      Guards(Wrap64(TotalMin()))
    }
  }

  /** One case per guard; each carries the values the source's message prints. */
  datatype ValidationError =
    | LengthTooSmall(length: int)
    | LengthTooLarge(length: int)
    | NegativeMinimum(cls: CharClass, min: int)
    | NoClassEnabled
    | MinimumWithoutClass(cls: CharClass, min: int)
    | MinimumsExceedLength(total: int, length: int)

  function ClassIndex(cls: CharClass): nat
  {
    match cls
    case Uppercase => 0
    case Lowercase => 1
    case Digit => 2
    case Symbol => 3
  }

  /** The position of an error's guard in the checking order. */
  function Rank(e: ValidationError): nat
  {
    match e
    case LengthTooSmall(_) => 0
    case LengthTooLarge(_) => 1
    case NegativeMinimum(cls, _) => 2 + ClassIndex(cls)
    case NoClassEnabled => 6
    case MinimumWithoutClass(cls, _) => 7 + ClassIndex(cls)
    case MinimumsExceedLength(_, _) => 11
  }

  /** config.go's `defaultConfig`. */
  function DefaultConfig(): (c: Config)
    ensures c.length == 16
    ensures forall cls :: c.Enabled(cls) && c.Min(cls) == 0
  {
    Config(16, true, true, true, true, 0, 0, 0, 0)
  }

  /** The defaults pass validation. */
  lemma DefaultConfigValid()
    ensures DefaultConfig().Validate() == Pass
  {
  }

  /** What `Validate` means: it accepts exactly the acceptable configurations, and otherwise
      reports a rule that is broken, choosing the earliest broken rule in the checking order. */
  lemma ValidateMeaning(c: Config)
    ensures c.Validate().Pass? <==> c.Acceptable()
    ensures c.Validate().Fail? ==> c.Reports(c.Validate().error)
    ensures c.Validate().Fail? ==> forall e :: c.Reports(e) ==> Rank(c.Validate().error) <= Rank(e)
  {
    var r := c.Validate();
    // Witnesses for the class quantifiers of `Acceptable`.
    assert c.Min(Uppercase) == c.minUppercase && c.Min(Lowercase) == c.minLowercase;
    assert c.Min(Digit) == c.minDigits && c.Min(Symbol) == c.minSymbols;
    assert c.Enabled(Uppercase) == c.uppercase && c.Enabled(Lowercase) == c.lowercase;
    assert c.Enabled(Digit) == c.digits && c.Enabled(Symbol) == c.symbols;
    if r.Fail? {
      forall e | c.Reports(e) ensures Rank(r.error) <= Rank(e) {
        match e
        case NoClassEnabled =>
          assert !c.Enabled(Uppercase) && !c.Enabled(Lowercase) && !c.Enabled(Digit) && !c.Enabled(Symbol);
        case _ =>
      }
    }
  }

  /** The rules of `Acceptable` spelled out field by field. */
  lemma AcceptableFields(c: Config)
    ensures c.Acceptable() <==>
      && 1 <= c.length <= MaxLength
      && c.minUppercase >= 0 && c.minLowercase >= 0 && c.minDigits >= 0 && c.minSymbols >= 0
      && (c.uppercase || c.lowercase || c.digits || c.symbols)
      && (c.minUppercase > 0 ==> c.uppercase) && (c.minLowercase > 0 ==> c.lowercase)
      && (c.minDigits > 0 ==> c.digits) && (c.minSymbols > 0 ==> c.symbols)
      && c.TotalMin() <= c.length
  {
    assert c.Min(Uppercase) == c.minUppercase && c.Min(Lowercase) == c.minLowercase;
    assert c.Min(Digit) == c.minDigits && c.Min(Symbol) == c.minSymbols;
    assert c.Enabled(Uppercase) == c.uppercase && c.Enabled(Lowercase) == c.lowercase;
    assert c.Enabled(Digit) == c.digits && c.Enabled(Symbol) == c.symbols;
  }

  /** A configuration is accepted exactly when there is nothing to report about it. */
  lemma AcceptableIffNothingToReport(c: Config)
    ensures c.Acceptable() <==> forall e :: !c.Reports(e)
  {
    ValidateMeaning(c);
  }

  /** The checking order leaves no choice: two reports of the same guard are the same report,
      so the ensures of `Validate` determine its result. */
  lemma ReportsDetermineError(c: Config, e1: ValidationError, e2: ValidationError)
    requires c.Reports(e1) && c.Reports(e2) && Rank(e1) == Rank(e2)
    ensures e1 == e2
  {
  }

  /** A non-positive length is reported before anything else, whatever the other fields hold. */
  lemma NonPositiveLengthFirst(c: Config)
    requires c.length <= 0
    ensures c.Validate() == Fail(LengthTooSmall(c.length))
  {
  }

  /** A length over the maximum is reported before any minimum or class rule. */
  lemma OversizedLengthSecond(c: Config)
    requires c.length > MaxLength
    ensures c.Validate() == Fail(LengthTooLarge(c.length))
  {
  }

  /** The sum rule is not strict: minimums adding up to exactly the length are accepted. */
  lemma MinimumsMayFillLength(c: Config)
    requires 1 <= c.length <= MaxLength && c.TotalMin() == c.length
    requires forall cls :: c.Min(cls) >= 0 && (c.Min(cls) > 0 ==> c.Enabled(cls))
    requires exists cls :: c.Enabled(cls)
    ensures c.Validate() == Pass
  {
    ValidateMeaning(c);
  }

  /** Every length from 1 to 10000, boundaries included, is accepted with the default classes. */
  lemma LengthRangeAccepted(n: int)
    requires 1 <= n <= MaxLength
    ensures Config(n, true, true, true, true, 0, 0, 0, 0).Validate() == Pass
  {
  }

  /** Among negative minimums, the first in class order is reported, before any class rule. */
  lemma FirstNegativeMinimumReported(c: Config, cls: CharClass)
    requires 1 <= c.length <= MaxLength && c.Min(cls) < 0
    requires forall earlier :: ClassIndex(earlier) < ClassIndex(cls) ==> c.Min(earlier) >= 0
    ensures c.Validate() == Fail(NegativeMinimum(cls, c.Min(cls)))
  {
    assert c.Min(Uppercase) == c.minUppercase && c.Min(Lowercase) == c.minLowercase && c.Min(Digit) == c.minDigits;
  }

  /** With the length in range and no negative minimum, having no class enabled is reported
      before any conflict between a minimum and a disabled class. */
  lemma NoClassReportedBeforeConflicts(c: Config)
    requires 1 <= c.length <= MaxLength && forall cls :: c.Min(cls) >= 0
    requires forall cls :: !c.Enabled(cls)
    ensures c.Validate() == Fail(NoClassEnabled)
  {
    assert c.Min(Uppercase) >= 0 && c.Min(Lowercase) >= 0 && c.Min(Digit) >= 0 && c.Min(Symbol) >= 0;
    assert !c.Enabled(Uppercase) && !c.Enabled(Lowercase) && !c.Enabled(Digit) && !c.Enabled(Symbol);
  }

  /** A positive minimum on a disabled class is reported with that minimum, the first such
      class in class order winning, before the sum is looked at. */
  lemma FirstConflictReported(c: Config, cls: CharClass)
    requires 1 <= c.length <= MaxLength && (forall other :: c.Min(other) >= 0) && (exists other :: c.Enabled(other))
    requires c.Min(cls) > 0 && !c.Enabled(cls)
    requires forall earlier :: ClassIndex(earlier) < ClassIndex(cls) ==> !(c.Min(earlier) > 0 && !c.Enabled(earlier))
    ensures c.Validate() == Fail(MinimumWithoutClass(cls, c.Min(cls)))
  {
    ValidateMeaning(c);
    assert c.Min(Uppercase) >= 0 && c.Min(Lowercase) >= 0 && c.Min(Digit) >= 0 && c.Min(Symbol) >= 0;
  }

  /** When every other rule holds, a sum of minimums above the length is reported with both
      the sum and the length. */
  lemma SumReportedLast(c: Config)
    requires 1 <= c.length <= MaxLength && (forall cls :: c.Min(cls) >= 0) && (exists cls :: c.Enabled(cls))
    requires forall cls :: c.Min(cls) > 0 ==> c.Enabled(cls)
    requires c.TotalMin() > c.length
    ensures c.Validate() == Fail(MinimumsExceedLength(c.TotalMin(), c.length))
  {
    ValidateMeaning(c);
    AcceptableFields(c);
  }

  /** The lengths 0, -5 and 10001 are rejected, a non-positive length before everything else. */
  lemma LengthBoundariesRejected()
    ensures Config(0, true, true, true, true, 0, 0, 0, 0).Validate() == Fail(LengthTooSmall(0))
    ensures Config(-5, true, true, true, true, 0, 0, 0, 0).Validate() == Fail(LengthTooSmall(-5))
    ensures Config(10001, true, true, true, true, 0, 0, 0, 0).Validate() == Fail(LengthTooLarge(10001))
    ensures Config(0, false, false, false, false, -1, -1, -1, -1).Validate() == Fail(LengthTooSmall(0))
  {
    NonPositiveLengthFirst(Config(0, true, true, true, true, 0, 0, 0, 0));
    NonPositiveLengthFirst(Config(-5, true, true, true, true, 0, 0, 0, 0));
    OversizedLengthSecond(Config(10001, true, true, true, true, 0, 0, 0, 0));
    NonPositiveLengthFirst(Config(0, false, false, false, false, -1, -1, -1, -1));
  }

  /** The class and minimum cases the repository's tests pin down. */
  lemma MinimumExamples()
    ensures Config(10, true, true, false, false, -1, -2, 0, 0).Validate() == Fail(NegativeMinimum(Uppercase, -1))
    ensures Config(16, true, true, true, true, 0, -1, -2, 0).Validate() == Fail(NegativeMinimum(Lowercase, -1))
    ensures Config(16, false, false, false, false, 0, 0, 0, 0).Validate() == Fail(NoClassEnabled)
    ensures Config(10, false, false, false, false, -1, 0, 0, 0).Validate() == Fail(NegativeMinimum(Uppercase, -1))
    ensures Config(10, false, true, false, false, 2, 0, 0, 0).Validate() == Fail(MinimumWithoutClass(Uppercase, 2))
    ensures Config(-1, false, false, false, false, -1, 0, 0, 0).Validate() == Fail(LengthTooSmall(-1))
    ensures Config(10, true, true, true, true, 3, 3, 3, 3).Validate() == Fail(MinimumsExceedLength(12, 10))
    ensures Config(4, true, true, true, true, 1, 1, 1, 1).Validate() == Pass
    ensures Config(1000, true, true, true, true, 250, 250, 250, 250).Validate() == Pass
  {
    FirstNegativeMinimumReported(Config(10, true, true, false, false, -1, -2, 0, 0), Uppercase);
    FirstNegativeMinimumReported(Config(16, true, true, true, true, 0, -1, -2, 0), Lowercase);
    NoClassReportedBeforeConflicts(Config(16, false, false, false, false, 0, 0, 0, 0));
    FirstNegativeMinimumReported(Config(10, false, false, false, false, -1, 0, 0, 0), Uppercase);
    var conflict := Config(10, false, true, false, false, 2, 0, 0, 0);
    assert conflict.Enabled(Lowercase);
    FirstConflictReported(conflict, Uppercase);
    NonPositiveLengthFirst(Config(-1, false, false, false, false, -1, 0, 0, 0));
    var exceeding := Config(10, true, true, true, true, 3, 3, 3, 3);
    assert exceeding.Enabled(Uppercase);
    SumReportedLast(exceeding);
    EqualMinimumsAccepted(4, 1);
    EqualMinimumsAccepted(1000, 250);
  }

  /** Equal minimums in every class are accepted when they add up to at most the length. */
  lemma EqualMinimumsAccepted(n: int, m: int)
    requires 1 <= n <= MaxLength && 0 <= m && 4 * m <= n
    ensures Config(n, true, true, true, true, m, m, m, m).Validate() == Pass
  {
  }

  /** Validation as written agrees with the intended one whenever the sum of minimums
      fits in a 64-bit `int`. */
  lemma ValidateAsWrittenAgrees(c: Config)
    requires InInt64(c.TotalMin())
    ensures c.ValidateAsWritten() == c.Validate()
  {
  }

  /** Where the two differ: minimums whose sum overflows pass validation as written. With
      `minUppercase` = 2^63 - 1 and `minLowercase` = 1 the sum wraps to -2^63; four minimums of
      2^62 wrap to 0. Neither configuration is acceptable. */
  lemma OverflowingMinimumsAccepted()
    ensures Config(16, true, true, true, true, Int64Max, 1, 0, 0).ValidateAsWritten() == Pass
    ensures Config(16, true, true, true, true, Int64Max, 1, 0, 0).Validate()
         == Fail(MinimumsExceedLength(Int64Max + 1, 16))
    ensures Config(16, true, true, true, true, 0x4000_0000_0000_0000, 0x4000_0000_0000_0000,
                   0x4000_0000_0000_0000, 0x4000_0000_0000_0000).ValidateAsWritten() == Pass
    ensures !Config(16, true, true, true, true, 0x4000_0000_0000_0000, 0x4000_0000_0000_0000,
                    0x4000_0000_0000_0000, 0x4000_0000_0000_0000).Acceptable()
  {
    var c := Config(16, true, true, true, true, 0x4000_0000_0000_0000, 0x4000_0000_0000_0000,
                    0x4000_0000_0000_0000, 0x4000_0000_0000_0000);
    assert c.TotalMin() == Modulus64;
    assert Wrap64(c.TotalMin()) == 0;
    ValidateMeaning(c);
  }
}
