/** String helpers shared by the views: JavaScript's `String.prototype.split`
    with a one-character separator, and the decimal text of a whole number
    (what a template literal makes of `Date.now()`). */
module Text {

  /** `s.split(sep)`: the pieces between separators, empty pieces included,
      so there is always at least one piece and none contains `sep`. The
      first piece is the part of `s` before its first separator: a prefix
      that is either all of `s` or followed by a separator. */
  function Split(s: string, sep: char): (parts: seq<string>)
    ensures |parts| >= 1
    ensures forall i :: 0 <= i < |parts| ==> sep !in parts[i]
    ensures parts[0] <= s
    ensures |parts[0]| < |s| ==> s[|parts[0]|] == sep
  {
    if s == [] then [""]
    else
      var rest := Split(s[1..], sep);
      if s[0] == sep then [""] + rest
      else [[s[0]] + rest[0]] + rest[1..]
  }

  /** A string without the separator splits into itself alone. */
  lemma {:induction false} SplitWithoutSeparator(s: string, sep: char)
    requires sep !in s
    ensures Split(s, sep) == [s]
  {
    if s != [] {
      SplitWithoutSeparator(s[1..], sep);
      assert [s[0]] + s[1..] == s;
    }
  }

  /** Splitting `a + sep + b`, where `a` has no separator, yields `a`
      followed by the pieces of `b`. */
  lemma {:induction false} SplitAtFirstSeparator(a: string, sep: char, b: string)
    requires sep !in a
    ensures Split(a + [sep] + b, sep) == [a] + Split(b, sep)
  {
    if a == [] {
      assert a + [sep] + b == [sep] + b;
      assert ([sep] + b)[1..] == b;
    } else {
      assert (a + [sep] + b)[1..] == a[1..] + [sep] + b;
      SplitAtFirstSeparator(a[1..], sep, b);
      assert [a[0]] + a[1..] == a;
    }
  }

  function Digit(d: nat): (c: char)
    requires d < 10
    ensures '0' <= c <= '9'
  {
    (('0' as int) + d) as char
  }

  /** The decimal text of a natural number: one or more digits. */
  function DecimalText(n: nat): (t: string)
    ensures |t| >= 1 && (n >= 10 <==> |t| >= 2)
    ensures forall i :: 0 <= i < |t| ==> '0' <= t[i] <= '9'
  {
    if n < 10 then [Digit(n)] else DecimalText(n / 10) + [Digit(n % 10)]
  }

  /** Different numbers have different decimal texts. */
  lemma {:induction false} DecimalTextInjective(n: nat, m: nat)
    requires DecimalText(n) == DecimalText(m)
    ensures n == m
  {
    var t := DecimalText(n);
    if n < 10 && m < 10 {
      assert t[0] == Digit(n) && t[0] == Digit(m);
    } else if n >= 10 && m >= 10 {
      var k := |t| - 1;
      assert t[k] == Digit(n % 10) && t[k] == Digit(m % 10);
      assert t[..k] == DecimalText(n / 10) && t[..k] == DecimalText(m / 10);
      DecimalTextInjective(n / 10, m / 10);
    }
  }
}
