# passgen in Dafny

A model of the Go password generator `passgen`. The model has three parts.

- **Validation.** The `Generator` struct has nine fields (a length, four class switches and four minimums), and so does the `config` struct. Validation checks the same ordered guards on both. The first guard that fails decides the error. An error carries the values that the source's message prints.
- **Options.** Functional options fold over the defaults in call order. Each option is a value here. `Applied` is the field write that the option's closure performs.
- **Generation.**
  - Each enabled class with a positive minimum contributes a segment drawn from its own alphabet.
  - A fill drawn from the union of the enabled alphabets brings the password up to the length.
  - A Fisher–Yates shuffle finishes the password.

The random source is an input. It is a stream of reads, and each read either yields a word or fails. One read stands for `crypto/rand.Read` filling eight bytes, decoded as a little-endian `uint64`. Every generation property holds for every stream:

- the exact length;
- the per-class minimums;
- characters only from enabled classes;
- the shuffle is a permutation;
- a failed read gives the empty string and an error, never a partial password.

Modules, one file each:

| module | file | models |
|---|---|---|
| `Outcomes` | outcomes.dfy | the `error`-or-nil result |
| `Charsets` | charsets.dfy | the four alphabets of passgen.go, their ASCII range and disjointness, UTF-8 byte length, per-alphabet counts |
| `Configuration` | config.dfy | config.go: the nine fields, `defaultConfig`, the ordered `validate` |
| `Options` | options.dfy | option.go: every setter, and applying them in call order |
| `Entropy` | entropy.dfy | the stream of random reads |
| `Drawing` | drawing.dfy | what `generatePassEntry` writes for a stream, and runs of such entries |
| `PassGen` | passgen.dfy | passgen.go and validate.go: the `Generator` class, `NewGenerator`, both `Generate`s, `generatePassEntry`, `shuffleString` |

The Go code is imperative, and so is the model:

- `Generator` is a class with the nine fields.
- `Generator.Apply` runs one option's closure on it.
- `NewGenerator` loops over the options.
- `GeneratePassEntry` loops over the reads, appending one character each time.
- `ShuffleString` swaps the elements of an array in place in a descending loop.

Each method is proved against specification functions:

- `Entry`, `Segments` and `RawPassword`, showing what is written before the shuffle, and `FisherYates`, showing what the shuffle makes of it;
- `Conforms`, the properties the repository's tests check;
- `Config.Validate` and `Config.Acceptable`.

## Model

| member | source | states |
|---|---|---|
| Charsets.AlphabetShape | passgen.go:23-59 | every alphabet is ASCII; uppercase, lowercase and symbols have 26 characters, digits 10 |
| Charsets.AlphabetsDisjoint | passgen.go:23-59 | no character belongs to two of the four alphabets |
| Charsets.AlphabetInRange | passgen.go:23-59 | each alphabet lies in its ASCII range `A-Z`, `a-z` or `0-9`; symbols are ASCII outside all three |
| Charsets.Upper | passgen.go:24-31 | the 26 uppercase letters, in the source's order |
| Charsets.Lower | passgen.go:33-40 | the 26 lowercase letters, in the source's order |
| Charsets.Digits | passgen.go:42-48 | the ten digits, in the source's order |
| Charsets.Symbols | passgen.go:50-58 | the 26 symbols, in the source's order |
| Charsets.ClassAlphabet | passgen.go:23-59 | the alphabet of each class |
| Charsets.Utf8Len | passgen.go:141 | the byte length `strings.Builder.Len` reports: the UTF-8 sizes of the characters added up |
| Charsets.AsciiUtf8Len | passgen.go:141 | for an ASCII string, the byte count `strings.Builder.Len` reports equals the character count |
| Charsets.CountOfPermutation | passgen.go:176-190 | the number of characters from an alphabet depends only on the multiset, so it survives reordering |
| Charsets.CountOfConcat | passgen.go:101 | counts add up over the concatenation of written entries |
| Configuration.DefaultConfig | config.go:18-26 | the default length is 16, all four classes are enabled and every minimum is 0 |
| Configuration.DefaultConfigValid | config.go:18-72 | the defaults pass `validate` |
| Configuration.Config.Guards | config.go:28-72 | the guard chain in its fixed order, the first failing guard deciding the error, with the sum that the last guard compares given as a parameter |
| Configuration.Config.Validate | config.go:28-72 | `validate` comparing the true sum of the minimums; its meaning is stated by `ValidateMeaning` |
| Configuration.Config.ValidateAsWritten | config.go:66-67 | `validate` as written, comparing the 64-bit wrapped sum (see Findings) |
| Configuration.Config.Acceptable | config.go:28-72 | the rules the guards enforce, stated one by one: the length is in 1..10000, no minimum is negative, some class is enabled, no positive minimum is on a disabled class, and the minimums fit in the length |
| Configuration.Wrap64 | config.go:66 | a 64-bit `int` result: in range, congruent to the exact value modulo 2^64, and equal to it when it fits |
| Configuration.ValidateAsWrittenAgrees | config.go:66-67 | validation as written and as intended agree whenever the sum of minimums fits in 64 bits |
| Configuration.OverflowingMinimumsAccepted | config.go:66-67 | minimums 2^63-1 and 1, or four of 2^62, pass validation as written although their sum exceeds the length |
| Configuration.ValidateMeaning | config.go:28-72 | `validate` succeeds if and only if the length is in 1..10000, every minimum is non-negative, some class is enabled, no positive minimum is on a disabled class and the minimums sum to at most the length; on failure the error truthfully reports a broken rule and is the earliest in the checking order |
| Configuration.AcceptableFields | config.go:28-72 | the acceptance rules spelled out on the nine fields |
| Configuration.AcceptableIffNothingToReport | config.go:28-72 | a configuration is accepted exactly when no error could truthfully be reported about it |
| Configuration.ReportsDetermineError | config.go:28-72 | two truthful reports of the same guard are equal, so the order fixes the error and its payload |
| Configuration.NonPositiveLengthFirst | config.go:29-31 | a length of 0 or less is reported before anything else, whatever the other fields hold |
| Configuration.OversizedLengthSecond | config.go:32-34 | a length over 10000 is reported before any minimum or class rule |
| Configuration.MinimumsMayFillLength | config.go:66-71 | minimums summing to exactly the length are accepted |
| Configuration.FirstNegativeMinimumReported | config.go:36-47 | with the length in range, the first negative minimum in class order is reported with its value, whatever the class switches say |
| Configuration.NoClassReportedBeforeConflicts | config.go:49-51 | with the length in range and no negative minimum, having no class enabled is reported before any minimum-versus-disabled-class conflict |
| Configuration.FirstConflictReported | config.go:53-64 | the first class in class order that has a positive minimum but is disabled is reported, with that minimum |
| Configuration.SumReportedLast | config.go:66-71 | when every other rule holds, a sum above the length is reported, carrying both the sum and the length |
| Configuration.EqualMinimumsAccepted | config.go:66-71 | equal minimums in every class are accepted when their sum fits in the length |
| Configuration.LengthRangeAccepted | config.go:29-34 | every length from 1 to 10000, both bounds included, is accepted with the default classes |
| Configuration.LengthBoundariesRejected | config.go:29-34 | lengths 0, -5 and 10001 are rejected; length 0 is reported even when every class is off and every minimum is negative |
| Configuration.MinimumExamples | config.go:29-71 | the repository's test cases, derived from the general ordering lemmas: `minUppercase` is reported first among several negative minimums; a negative minimum is reported before "no class enabled"; a minimum of 2 on disabled uppercase reports 2; a sum of 12 over a length of 10 reports both numbers; 4×1 = 4 and 4×250 = 1000 are accepted |
| Options.AppliedFollowsTable | option.go:5-90 | each setter stores exactly its argument (true for `With*`, false for `Without*`) without checking it, and leaves every other field unchanged; `WithMinRequirements` writes all four minimums and nothing else |
| Options.MinRequirementsAsSingleSetters | option.go:83-90 | `WithMinRequirements(u, l, d, s)` has the same effect as the four single-minimum setters applied in order |
| Options.LastWriteWins | passgen.go:69-71 | applying options in call order leaves each field holding the last value written to it, or the initial value if nothing wrote it |
| Options.ApplyAllConcat | passgen.go:69-71 | options applied after a prefix act on the state the prefix left |
| Options.DisableThenEnable | passgen.go:69-71 | `WithoutUppercase(), WithUpperCase()` ends with uppercase enabled and still validates |
| Options.NegativeLengthStoredThenRejected | option.go:5-9 | a negative length is stored as given; only validation rejects it |
| Options.Applied | option.go:5-90 | the field writes each option's closure performs |
| Options.ApplyAll | passgen.go:69-71 | the options applied one after another, in call order |
| Options.ApplyAllStep | passgen.go:69-71 | applying the options up to and including the `i`-th is applying the `i`-th to the result of those before it |
| Options.OverflowingOptionsAccepted | validate.go:43-46 | setting minimums 2^63-1 and 1 gives fields that pass validation as written but are not acceptable |
| Entropy.Reduce | passgen.go:169 | `word % len` is an index below `len` |
| Drawing.Entry | passgen.go:159-174 | an entry of `count` reads has exactly `count` characters, the k-th being `alphabet[word_k % len(alphabet)]` |
| Drawing.EntryCount | passgen.go:159-174 | every character of an entry is in its alphabet |
| Drawing.Segments | passgen.go:93-149 | the entries written one after another have as many characters as they make reads |
| Drawing.SegmentsWithin | passgen.go:93-149 | if every entry draws from alphabets inside `union`, every character written is in `union` |
| Drawing.SegmentsCount | passgen.go:93-149 | each entry contributes its full count to its alphabet's count in the result |
| PassGen.UnionAlphabetMembers | passgen.go:91-130 | a character is in `charSets` if and only if some enabled class's alphabet has it |
| PassGen.UnionAlphabet | passgen.go:91-130 | `charSets`: the enabled classes' alphabets in class order |
| PassGen.UnionAlphabetNonEmpty | passgen.go:143-144 | `charSets` is non-empty once some class is enabled, so the fill never takes `% 0` |
| PassGen.Parts | passgen.go:93-149 | for a validated generator the class blocks make exactly `totalMin` reads, and together with the fill exactly `length` reads |
| PassGen.UnionExcludesDisabled | passgen.go:91-130 | a string drawn from `charSets` has no character of a disabled class |
| PassGen.PartsWithinUnion | passgen.go:93-149 | every block and the fill draw from `charSets` |
| PassGen.DrawnFromUnionIsAscii | passgen.go:23-59 | anything drawn from `charSets` is ASCII |
| PassGen.MinimumsAscii | passgen.go:141 | what the class blocks write is ASCII, so `remaining` is `length - totalMin` |
| PassGen.RawPasswordConforms | passgen.go:89-149 | before shuffling, for every stream, the password has length `length`, at least each class's minimum, only characters of enabled classes and none of disabled ones |
| PassGen.RawPassword | passgen.go:89-149 | the password before shuffling: the four class blocks, then the fill |
| PassGen.Conforms | passgen.go:89-157 | what the repository's tests check of a password: its length is `length`, each class has at least its minimum, every character is in an enabled class and none is in a disabled one |
| PassGen.ConformsPermutation | passgen.go:151-156 | those properties depend only on the multiset of characters, so the shuffle keeps them |
| PassGen.SwappedPermutes | passgen.go:186 | swapping `runes[i]` and `runes[j]` keeps the multiset |
| PassGen.SwapIndex | passgen.go:185 | the swap partner `j` for position `i` is `word % (i + 1)`, so it lies in `[0, i]` |
| PassGen.ShuffledSteps | passgen.go:180-187 | the string after the shuffle's first `k` swaps; step `k` swaps position `len - k` with the partner drawn from the `k`-th read, and the length is kept |
| PassGen.FisherYates | passgen.go:176-190 | the shuffled string for a stream of reads that succeed |
| PassGen.StepPermutes | passgen.go:185-186 | each swap of the shuffle leaves the multiset of characters unchanged |
| PassGen.Swap | passgen.go:186 | exchanges two elements of the rune array in place |
| PassGen.FisherYatesPermutes | passgen.go:176-190 | the shuffle is a permutation for every stream |
| PassGen.TwoCharacterShuffle | passgen.go:180-187 | the words decide the order: on "ab" an even word gives "ba" and an odd word gives "ab" |
| PassGen.GeneratePassEntry | passgen.go:159-174 | succeeds if and only if its `count` reads succeed (none for `count <= 0`), returning exactly `Entry`; on a failed read it returns "" and an error |
| PassGen.ShuffleString | passgen.go:176-190 | makes `len - 1` reads and succeeds if and only if they all succeed; on success it returns exactly `FisherYates` of its input, so it keeps the length and multiset; on a failed read it returns "" and an error |
| PassGen.Generator.constructor | passgen.go:62-68 | the starting generator holds the defaults |
| PassGen.Generator.Validate | validate.go:5-49 | gives the same outcome as config.go's `validate` on the same field values, so it succeeds exactly when the generator is valid; it equals validation as written whenever the sum of minimums fits in 64 bits; it only reads the fields |
| PassGen.Generator.Apply | option.go:3-90 | running an option's closure changes the fields exactly as `Applied` says |
| PassGen.Generator.Generate | passgen.go:89-157 | for a valid generator: it fails in the minimum or fill phase exactly when one of the first `length` reads fails; it fails in the shuffle exactly when one of the next `length - 1` reads fails; on success the password is `FisherYates` of the raw password, so it is a permutation of it and conforms; on any failure the password is "" |
| PassGen.GenerateFrom | passgen.go:89-157 | the body of `Generate` over the generator's field values, with the same contract |
| PassGen.DrawMinimums | passgen.go:90-139 | the four class blocks in order: `charSets` becomes the union alphabet and `rawPass` the four minimum segments; a failure means some read among the first `length` failed |
| PassGen.ClassBlock | passgen.go:93-103 | one class block: an enabled class's alphabet joins `charSets`; a positive minimum appends that many characters of it, and the block fails exactly when those reads fail |
| PassGen.NewGenerator | passgen.go:61-78 | applies the options to the defaults in order and validates; returns no generator and the validation error exactly when validation fails, else a fresh valid generator holding the applied fields; with no options, the defaults |
| PassGen.Generate | passgen.go:80-87 | fails with the validation error whenever `NewGenerator` would fail; otherwise succeeds exactly when its `2·length - 1` reads succeed, and the password conforms; on failure the password is "" |

## Findings

| source | as written | input that shows it | evidently intended | confidence | as-written member | corrected member |
|---|---|---|---|---|---|---|
| config.go:66-67 | `totalMin` is a 64-bit `int`, so the sum of the four minimums wraps before it is compared with the length | length 16, all classes on, `minUppercase` = 9223372036854775807, `minLowercase` = 1: the sum wraps to -2^63 and `validate` returns nil; four minimums of 2^62 wrap to 0 and pass too | reject minimums whose true sum exceeds the length | not executed | Configuration.OverflowingMinimumsAccepted | Configuration.ValidateMeaning |
| validate.go:43-44 | the generator's copy of the checks sums the minimums in the same wrapping way, so `NewGenerator` accepts such a generator, and its `Generate` then asks `generatePassEntry` for 2^63-1 characters | `WithMinUppercase(9223372036854775807), WithMinLowercase(1)` | `NewGenerator` refuses the options | not executed | Options.OverflowingOptionsAccepted | PassGen.Generator.Validate |

## Left out

- Random bytes: `crypto/rand.Read` and `binary.LittleEndian.Uint64` are replaced by a stream of reads. Each read yields an unbounded natural or fails, so the 64-bit range of a word is not modelled. No property depends on it.
- Uniformity: the distribution of passwords, the modulo bias of `word % n`, and the frequency and "passwords differ" tests are probabilistic, so they are not modelled.
- Error messages: the strings and the `%w` wrapping are not modelled. Errors are a datatype carrying the numeric values the messages print. The wrapping layers are reduced to `EntryFailed` and `ShuffleFailed` for `Generate`, and to `Invalid` for `NewGenerator`.
- Concurrency: concurrent use, in the tests and the benchmarks, is not modelled.
- Command line: cmd/main.go only prints to the console, so it is not part of this model.
- Zero-value generator: `PassGen.Generator.Generate` requires a valid generator, which is what `NewGenerator` hands out. That excludes the zero value `Generator{}`, which code outside the package can also build. On it the source returns `("", nil)`: the length is 0, so the fill is skipped and the empty string is shuffled. The model does not cover that call.
- `PassGen.Generator.Generate`: its body delegates to `GenerateFrom`, which is split into `DrawMinimums` and four `ClassBlock` calls. These work on the generator's field values, read once at the start. Reading the fields once changes nothing, because `Generate` never writes them.
- Runes and strings: Go converts between `[]rune` and `string`. Both are `seq<char>` here, because every character drawn is ASCII.
- Configuration.ValidateMeaning: this is about the intended validation, which compares the true sum of the minimums. The source compares a 64-bit sum that wraps, so it also accepts minimums whose sum overflows, e.g. length 16 with `minUppercase` = 2^63-1 and `minLowercase` = 1. `Config.ValidateAsWritten` models that, and the Findings table records it.
- PassGen.Generator.Validate: it implements the intended validation. It agrees with validate.go as written whenever the sum of minimums fits in 64 bits. The wrapped case is recorded under Findings.
- 64-bit fields: the nine fields are unbounded integers, where Go's are 64-bit `int`s. For field values in the 64-bit range, every comparison in the guards agrees with Go's. The one place the width matters is the sum of minimums, which is modelled by `Wrap64` and `ValidateAsWritten`.
