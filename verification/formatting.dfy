/**
 * The `"%d:%02d"` rendering of whole seconds as minutes and seconds, shared by
 * `VoiceNote.formattedDuration` and `VoiceNotesViewModel.formatTime`, together
 * with the `%d` rendering of a count that builds generated titles.
 */
module Formatting {
  import opened Optional

  predicate IsDigit(c: char) {
    '0' <= c <= '9'
  }

  predicate IsDigits(s: string) {
    forall i :: 0 <= i < |s| ==> IsDigit(s[i])
  }

  /** The number a string of decimal digits denotes, most significant digit first. */
  function DigitsValue(s: string): nat
    requires IsDigits(s)
  {
    if s == [] then 0 else 10 * DigitsValue(s[..|s| - 1]) + (s[|s| - 1] as int - '0' as int)
  }

  /** What `%d` prints for a non-negative number: at least one digit and no leading zero. */
  predicate IsCanonical(s: string) {
    IsDigits(s) && |s| >= 1 && (s[0] == '0' ==> |s| == 1)
  }

  function DigitChar(d: nat): (c: char)
    requires d < 10
    ensures IsDigit(c) && c as int - '0' as int == d
  {
    ('0' as int + d) as char
  }

  /** `%d`: the decimal numeral of `n`. */
  function Decimal(n: nat): (s: string)
    ensures IsCanonical(s) && DigitsValue(s) == n
  {
    if n < 10 then [DigitChar(n)]
    else
      var prefix := Decimal(n / 10);
      var s := prefix + [DigitChar(n % 10)];
      assert s[..|s| - 1] == prefix;
      s
  }

  /** `%02d` for a value below 100: exactly two digits, zero-padded. */
  function TwoDigits(n: nat): (s: string)
    requires n < 100
    ensures |s| == 2 && IsDigits(s) && DigitsValue(s) == n
  {
    var s := [DigitChar(n / 10), DigitChar(n % 10)];
    assert s[..1] == [s[0]] && [s[0]][..0] == [];
    assert DigitsValue([s[0]]) == n / 10;
    s
  }

  /** The part of an "m:ss" string before the colon. */
  function Minutes(s: string): string
    requires |s| >= 3
  {
    s[..|s| - 3]
  }

  /** The two characters of an "m:ss" string after the colon. */
  function Seconds(s: string): string
    requires |s| >= 3
  {
    s[|s| - 2..]
  }

  /**
   * `String(format: "%d:%02d", t / 60, t % 60)`: minutes are not wrapped into
   * hours, the seconds field is always two digits and below 60.
   */
  function MinSec(t: nat): (s: string)
    ensures |s| >= 4 && s[|s| - 3] == ':'
    ensures IsCanonical(Minutes(s)) && DigitsValue(Minutes(s)) == t / 60
    ensures |Seconds(s)| == 2 && IsDigits(Seconds(s))
    ensures DigitsValue(Seconds(s)) == t % 60 && DigitsValue(Seconds(s)) < 60
  {
    var m, sec := Decimal(t / 60), TwoDigits(t % 60);
    var s := m + ":" + sec;
    assert Minutes(s) == m && Seconds(s) == sec;
    s
  }

  /**
   * Reads an "m:ss" string back: canonical minutes, a colon, two digits of
   * seconds below 60. The reference against which `MinSec` is checked.
   */
  function ParseMinSec(s: string): Option<nat> {
    if |s| >= 4 && s[|s| - 3] == ':' && IsCanonical(Minutes(s))
       && IsDigits(Seconds(s)) && DigitsValue(Seconds(s)) < 60
    then Some(60 * DigitsValue(Minutes(s)) + DigitsValue(Seconds(s)))
    else None
  }

  /** A digit string that does not start with '0' denotes a positive number. */
  lemma {:induction false} LeadingDigitPositive(s: string)
    requires IsDigits(s) && |s| >= 1 && s[0] != '0'
    ensures DigitsValue(s) > 0
  {
    if |s| > 1 {
      LeadingDigitPositive(s[..|s| - 1]);
    }
  }

  /** `%d` output is determined by its value: every canonical numeral is `Decimal` of its value. */
  lemma {:induction false} DecimalOfCanonical(s: string)
    requires IsCanonical(s)
    ensures Decimal(DigitsValue(s)) == s
  {
    if |s| > 1 {
      var prefix := s[..|s| - 1];
      LeadingDigitPositive(prefix);
      DecimalOfCanonical(prefix);
      var d := s[|s| - 1] as int - '0' as int;
      assert DigitsValue(s) / 10 == DigitsValue(prefix) && DigitsValue(s) % 10 == d;
      assert s == prefix + [s[|s| - 1]];
    }
  }

  /** Two two-digit strings with the same value are equal. */
  lemma TwoDigitsOfValue(s: string)
    requires |s| == 2 && IsDigits(s) && DigitsValue(s) < 100
    ensures TwoDigits(DigitsValue(s)) == s
  {
    assert s[..1] == [s[0]];
    var hi, lo := s[0] as int - '0' as int, s[1] as int - '0' as int;
    assert DigitsValue(s) == 10 * hi + lo;
    assert DigitsValue(s) / 10 == hi && DigitsValue(s) % 10 == lo;
  }

  /** "m:ss" rendering and reading are inverse: `s` is the rendering of `t` exactly when it reads back as `t`. */
  lemma MinSecParse(s: string, t: nat)
    ensures ParseMinSec(s) == Some(t) <==> MinSec(t) == s
  {
    if ParseMinSec(s) == Some(t) {
      var m, sec := Minutes(s), Seconds(s);
      DecimalOfCanonical(m);
      TwoDigitsOfValue(sec);
      assert t / 60 == DigitsValue(m) && t % 60 == DigitsValue(sec);
      assert s == m + ":" + sec;
    }
  }

  /** Different whole-second values never render alike. */
  lemma MinSecInjective(t: nat, u: nat)
    ensures MinSec(t) == MinSec(u) <==> t == u
  {
    MinSecParse(MinSec(t), t);
    MinSecParse(MinSec(t), u);
  }

  /** An hour is shown as sixty minutes, not wrapped into hours. */
  lemma MinSecExamples()
    ensures MinSec(3600) == "60:00"
    ensures MinSec(59) == "0:59"
    ensures MinSec(61) == "1:01"
  {
  }
}
