/** The fragment of JavaScript regular expressions the forms use: anchored
    patterns (`^…$`) built from character classes with the quantifiers
    exactly-once, `?` and `+`, and an optional group of literal
    alternatives. Matching backtracks the way a regular-expression engine
    does, so a pattern matches a string exactly when some way of reading
    the string through the tokens exists. */
module Patterns {
  import opened Text

  /** `[…]`, `[^…]`, `\s`, `[0-9]` and `[a-zA-Z]`: the listed characters,
      optionally all white space, all digits and all ASCII letters,
      optionally negated. */
  datatype CharClass = CharClass(chars: string, spaces: bool, digits: bool, letters: bool, negated: bool)

  predicate InClass(c: char, k: CharClass) {
    var member := c in k.chars || (k.spaces && IsSpace(c)) || (k.digits && IsDigit(c))
                  || (k.letters && (IsLower(c) || IsUpper(c)));
    if k.negated then !member else member
  }

  /** A class of one character. */
  function Literal(c: char): CharClass {
    CharClass([c], false, false, false, false)
  }

  datatype Token =
    | One(k: CharClass)                 // one character of the class
    | Opt(k: CharClass)                 // `?`
    | Plus(k: CharClass)                // `+`
    | Star(k: CharClass)                // `*`, what remains of a `+` after its first character
    | OptLiterals(options: seq<string>) // `(a|b|…)?` over literal strings

  /** Whether the whole of `s` matches the token sequence `p`. */
  predicate Match(p: seq<Token>, s: string)
    decreases |s|, |p|, 1, 0
  {
    if p == [] then s == []
    else match p[0]
      case One(k) => |s| > 0 && InClass(s[0], k) && Match(p[1..], s[1..])
      case Opt(k) => (|s| > 0 && InClass(s[0], k) && Match(p[1..], s[1..])) || Match(p[1..], s)
      case Plus(k) => |s| > 0 && InClass(s[0], k) && Match([Star(k)] + p[1..], s[1..])
      case Star(k) => Match(p[1..], s) || (|s| > 0 && InClass(s[0], k) && Match(p, s[1..]))
      case OptLiterals(options) => AltMatch(options, p[1..], s) || Match(p[1..], s)
  }

  /** Some alternative is a prefix of `s` and the rest of `s` matches `rest`. */
  predicate AltMatch(options: seq<string>, rest: seq<Token>, s: string)
    decreases |s|, |rest| + 1, 0, |options|
  {
    if options == [] then false
    else (StartsWith(s, options[0]) && Match(rest, s[|options[0]|..])) || AltMatch(options[1..], rest, s)
  }

  /** The alternative taken by a successful AltMatch. */
  lemma AltMatchWitness(options: seq<string>, rest: seq<Token>, s: string)
    requires AltMatch(options, rest, s)
    ensures exists i :: 0 <= i < |options| && StartsWith(s, options[i]) && Match(rest, s[|options[i]|..])
  {
    if !(StartsWith(s, options[0]) && Match(rest, s[|options[0]|..])) {
      AltMatchWitness(options[1..], rest, s);
      var i :| 0 <= i < |options[1..]| && StartsWith(s, options[1..][i]) && Match(rest, s[|options[1..][i]|..]);
      assert options[1..][i] == options[i + 1];
    }
  }

  /** Taking any one alternative that fits is enough. */
  lemma AltMatchIntro(options: seq<string>, rest: seq<Token>, s: string, i: nat)
    requires i < |options| && StartsWith(s, options[i]) && Match(rest, s[|options[i]|..])
    ensures AltMatch(options, rest, s)
  {
    if i > 0 {
      assert options[1..][i - 1] == options[i];
      AltMatchIntro(options[1..], rest, s, i - 1);
    }
  }

  // ---------------------------------------------------------------------
  // Classes and patterns that only count digits

  const DigitClass := CharClass("", false, true, false, false)

  /** A class none of whose members is a digit. */
  predicate DigitFree(k: CharClass) {
    !k.negated && !k.digits && forall i :: 0 <= i < |k.chars| ==> !IsDigit(k.chars[i])
  }

  lemma DigitFreeMember(c: char, k: CharClass)
    requires DigitFree(k) && InClass(c, k)
    ensures !IsDigit(c)
  {
    if c in k.chars {
      var i :| 0 <= i < |k.chars| && k.chars[i] == c;
    }
  }

  /** A pattern of single digits and optional digit-free separators. */
  predicate DigitsAndSeparators(p: seq<Token>) {
    forall i :: 0 <= i < |p| ==> p[i] == One(DigitClass) || (p[i].Opt? && DigitFree(p[i].k))
  }

  /** How many digits such a pattern asks for. */
  function DigitSlots(p: seq<Token>): nat {
    multiset(p)[One(DigitClass)]
  }

  /** A string that matches a pattern of digits and separators carries
      exactly as many digits as the pattern has digit slots. */
  lemma {:induction false} SeparatedDigitsCount(p: seq<Token>, s: string)
    requires DigitsAndSeparators(p) && Match(p, s)
    ensures |Digits(s)| == DigitSlots(p)
    decreases |s|, |p|
  {
    if p != [] {
      assert DigitsAndSeparators(p[1..]) by {
        forall i | 0 <= i < |p[1..]| ensures p[1..][i] == One(DigitClass) || (p[1..][i].Opt? && DigitFree(p[1..][i].k)) {
          assert p[1..][i] == p[i + 1];
        }
      }
      if p[0] == One(DigitClass) {
        SeparatedDigitsCount(p[1..], s[1..]);
        assert s == [s[0]] + s[1..];
        assert p == [p[0]] + p[1..];
      } else {
        assert p == [p[0]] + p[1..];
        var k := p[0].k;
        if |s| > 0 && InClass(s[0], k) && Match(p[1..], s[1..]) {
          SeparatedDigitsCount(p[1..], s[1..]);
          DigitFreeMember(s[0], k);
          assert s == [s[0]] + s[1..];
        } else {
          SeparatedDigitsCount(p[1..], s);
        }
      }
    }
  }

  /** Bare digits, as many as the slots, match such a pattern: every
      separator is skipped. */
  lemma {:induction false} BareDigitsMatch(p: seq<Token>, s: string)
    requires DigitsAndSeparators(p) && AllDigits(s) && |s| == DigitSlots(p)
    ensures Match(p, s)
    decreases |p|
  {
    if p != [] {
      assert DigitsAndSeparators(p[1..]) by {
        forall i | 0 <= i < |p[1..]| ensures p[1..][i] == One(DigitClass) || (p[1..][i].Opt? && DigitFree(p[1..][i].k)) {
          assert p[1..][i] == p[i + 1];
        }
      }
      assert p == [p[0]] + p[1..];
      if p[0] == One(DigitClass) {
        BareDigitsMatch(p[1..], s[1..]);
      } else {
        BareDigitsMatch(p[1..], s);
      }
    }
  }

  // ---------------------------------------------------------------------
  // Reading a pattern one token at a time

  /** The first n characters of s all belong to k. */
  predicate LeadIn(s: string, k: CharClass, n: int) {
    0 <= n <= |s| && forall i :: 0 <= i < n ==> InClass(s[i], k)
  }

  /** A leading single-character token takes the first character. */
  lemma OneStep(k: CharClass, rest: seq<Token>, s: string)
    ensures Match([One(k)] + rest, s) <==> |s| > 0 && InClass(s[0], k) && Match(rest, s[1..])
  {
    assert ([One(k)] + rest)[1..] == rest;
  }

  /** A leading `*` takes some run of members of its class. */
  lemma {:induction false} StarElim(k: CharClass, rest: seq<Token>, s: string)
    requires Match([Star(k)] + rest, s)
    ensures exists n :: LeadIn(s, k, n) && Match(rest, s[n..])
    decreases |s|
  {
    assert ([Star(k)] + rest)[1..] == rest;
    if Match(rest, s) {
      assert LeadIn(s, k, 0) && s[0..] == s;
    } else {
      StarElim(k, rest, s[1..]);
      var n :| LeadIn(s[1..], k, n) && Match(rest, s[1..][n..]);
      assert s[1..][n..] == s[n + 1..];
      assert LeadIn(s, k, n + 1) by {
        forall i | 0 <= i < n + 1 ensures InClass(s[i], k) {
          if i > 0 {
            assert s[i] == s[1..][i - 1];
          }
        }
      }
    }
  }

  /** Any run of members of the class may be taken by a leading `*`. */
  lemma {:induction false} StarIntro(k: CharClass, rest: seq<Token>, s: string, n: nat)
    requires LeadIn(s, k, n) && Match(rest, s[n..])
    ensures Match([Star(k)] + rest, s)
    decreases n
  {
    assert ([Star(k)] + rest)[1..] == rest;
    if n == 0 {
      assert s[0..] == s;
    } else {
      assert s[1..][n - 1..] == s[n..];
      assert LeadIn(s[1..], k, n - 1) by {
        forall i | 0 <= i < n - 1 ensures InClass(s[1..][i], k) {
          assert s[1..][i] == s[i + 1];
        }
      }
      StarIntro(k, rest, s[1..], n - 1);
    }
  }

  /** A leading `+` takes a non-empty run of members of its class. */
  lemma PlusElim(k: CharClass, rest: seq<Token>, s: string)
    requires Match([Plus(k)] + rest, s)
    ensures exists n :: n >= 1 && LeadIn(s, k, n) && Match(rest, s[n..])
  {
    assert ([Plus(k)] + rest)[1..] == rest;
    StarElim(k, rest, s[1..]);
    var n :| LeadIn(s[1..], k, n) && Match(rest, s[1..][n..]);
    assert s[1..][n..] == s[n + 1..];
    assert LeadIn(s, k, n + 1) by {
      forall i | 0 <= i < n + 1 ensures InClass(s[i], k) {
        if i > 0 {
          assert s[i] == s[1..][i - 1];
        }
      }
    }
  }

  lemma PlusIntro(k: CharClass, rest: seq<Token>, s: string, n: nat)
    requires n >= 1 && LeadIn(s, k, n) && Match(rest, s[n..])
    ensures Match([Plus(k)] + rest, s)
  {
    assert ([Plus(k)] + rest)[1..] == rest;
    assert s[1..][n - 1..] == s[n..];
    assert LeadIn(s[1..], k, n - 1) by {
      forall i | 0 <= i < n - 1 ensures InClass(s[1..][i], k) {
        assert s[1..][i] == s[i + 1];
      }
    }
    StarIntro(k, rest, s[1..], n - 1);
  }
}
