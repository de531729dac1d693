/**
  The four fixed character classes of the generator and the facts about them that
  generation relies on: each alphabet is ASCII (so a byte count is a character count)
  and no character belongs to two classes.
 */
module Charsets {

  datatype CharClass = Uppercase | Lowercase | Digit | Symbol

  const Upper: seq<char> := [
    'A', 'B', 'C', 'D', 'E', 'F', 'G', 'H', 'I', 'J', 'K', 'L', 'M',
    'N', 'O', 'P', 'Q', 'R', 'S', 'T', 'U', 'V', 'W', 'X', 'Y', 'Z']

  const Lower: seq<char> := [
    'a', 'b', 'c', 'd', 'e', 'f', 'g', 'h', 'i', 'j', 'k', 'l', 'm',
    'n', 'o', 'p', 'q', 'r', 's', 't', 'u', 'v', 'w', 'x', 'y', 'z']

  const Digits: seq<char> := ['0', '1', '2', '3', '4', '5', '6', '7', '8', '9']

  const Symbols: seq<char> := [
    '!', '@', '#', '$', '%', '^', '&', '*', '(', ')', '_', '+', '-',
    '=', '[', ']', '{', '}', '|', ';', ':', ',', '.', '<', '>', '?']

  function ClassAlphabet(cls: CharClass): seq<char>
  {
    match cls
    case Uppercase => Upper
    case Lowercase => Lower
    case Digit => Digits
    case Symbol => Symbols
  }

  predicate IsAscii(s: seq<char>)
  {
    forall k :: 0 <= k < |s| ==> s[k] as int < 0x80
  }

  /** Where in the ASCII table each class lives; used to show the classes are disjoint. */
  predicate InClassRange(cls: CharClass, ch: char)
  {
    match cls
    case Uppercase => 'A' <= ch <= 'Z'
    case Lowercase => 'a' <= ch <= 'z'
    case Digit => '0' <= ch <= '9'
    case Symbol => ch as int < 0x80 && !('A' <= ch <= 'Z') && !('a' <= ch <= 'z') && !('0' <= ch <= '9')
  }

  lemma AlphabetInRange(cls: CharClass, ch: char)
    requires ch in ClassAlphabet(cls)
    ensures InClassRange(cls, ch)
  {
    match cls
    case Uppercase => UpperInRange(ch);
    case Lowercase => LowerInRange(ch);
    case Digit =>
    case Symbol => SymbolsInRange(ch);
  }

  lemma UpperInRange(ch: char)
    requires ch in Upper
    ensures 'A' <= ch <= 'Z'
  {
  }

  lemma LowerInRange(ch: char)
    requires ch in Lower
    ensures 'a' <= ch <= 'z'
  {
  }

  lemma SymbolsInRange(ch: char)
    requires ch in Symbols
    ensures InClassRange(Symbol, ch)
  {
  }

  /** Every alphabet is non-empty, ASCII, and has the size the source's tables have. */
  lemma AlphabetShape(cls: CharClass)
    ensures IsAscii(ClassAlphabet(cls))
    ensures |ClassAlphabet(cls)| == (if cls == Digit then 10 else 26)
  {
    var a := ClassAlphabet(cls);
    forall k | 0 <= k < |a| ensures a[k] as int < 0x80 {
      assert a[k] in a;
      AlphabetInRange(cls, a[k]);
    }
  }

  /** No character belongs to two classes. */
  lemma AlphabetsDisjoint(c1: CharClass, c2: CharClass, ch: char)
    requires c1 != c2
    requires ch in ClassAlphabet(c1)
    ensures ch !in ClassAlphabet(c2)
  {
    AlphabetInRange(c1, ch);
    if ch in ClassAlphabet(c2) {
      AlphabetInRange(c2, ch);
      assert false;
    }
  }

  /** The number of bytes of the UTF-8 encoding of `s`, which is what Go's
      `strings.Builder.Len` reports. */
  function Utf8Len(s: seq<char>): nat
  {
    if s == [] then 0
    else
      var ch := s[|s| - 1] as int;
      Utf8Len(s[..|s| - 1]) + (if ch < 0x80 then 1 else if ch < 0x800 then 2 else if ch < 0x1_0000 then 3 else 4)
  }

  lemma {:induction false} AsciiUtf8Len(s: seq<char>)
    requires IsAscii(s)
    ensures Utf8Len(s) == |s|
  {
    if s != [] {
      var init := s[..|s| - 1];
      assert IsAscii(init) by {
        forall k | 0 <= k < |init| ensures init[k] as int < 0x80 { assert init[k] == s[k]; }
      }
      AsciiUtf8Len(init);
    }
  }

  /** How many characters of `s` belong to `alphabet`. */
  function CountOf(s: seq<char>, alphabet: seq<char>): nat
  {
    if s == [] then 0 else CountOf(s[1..], alphabet) + (if s[0] in alphabet then 1 else 0)
  }

  lemma {:induction false} CountOfConcat(s: seq<char>, t: seq<char>, alphabet: seq<char>)
    ensures CountOf(s + t, alphabet) == CountOf(s, alphabet) + CountOf(t, alphabet)
  {
    if s != [] {
      assert (s + t)[0] == s[0];
      assert (s + t)[1..] == s[1..] + t;
      CountOfConcat(s[1..], t, alphabet);
    } else {
      assert s + t == t;
    }
  }

  lemma {:induction false} CountOfAllIn(s: seq<char>, alphabet: seq<char>)
    requires forall k :: 0 <= k < |s| ==> s[k] in alphabet
    ensures CountOf(s, alphabet) == |s|
  {
    if s != [] {
      CountOfAllIn(s[1..], alphabet);
    }
  }

  /** Removing the character at `j` takes it out of the count and out of the multiset. */
  lemma RemoveAt(t: seq<char>, j: nat, alphabet: seq<char>)
    requires j < |t|
    ensures multiset(t[..j] + t[j + 1..]) == multiset(t) - multiset{t[j]}
    ensures CountOf(t, alphabet) == CountOf(t[..j] + t[j + 1..], alphabet) + (if t[j] in alphabet then 1 else 0)
  {
    assert t == t[..j] + ([t[j]] + t[j + 1..]);
    CountOfConcat(t[..j], [t[j]] + t[j + 1..], alphabet);
    CountOfConcat([t[j]], t[j + 1..], alphabet);
    CountOfConcat(t[..j], t[j + 1..], alphabet);
  }

  /** Counting by class does not see the order of characters. */
  lemma {:induction false} CountOfPermutation(s: seq<char>, t: seq<char>, alphabet: seq<char>)
    requires multiset(s) == multiset(t)
    ensures CountOf(s, alphabet) == CountOf(t, alphabet)
  {
    if s != [] {
      assert s[0] in multiset(t);
      var j :| 0 <= j < |t| && t[j] == s[0];
      RemoveAt(t, j, alphabet);
      assert s == [s[0]] + s[1..];
      assert multiset(s[1..]) == multiset(s) - multiset{s[0]};
      CountOfPermutation(s[1..], t[..j] + t[j + 1..], alphabet);
    }
  }
}
