/**
 * The few Python `str` operations the exporter uses, over ASCII text:
 * character classes of the regular expressions, `lower`, `find`, `split`,
 * `startswith` and `replace` of one character.
 */
module PyStr {

  predicate IsDigit(c: char) { '0' <= c <= '9' }

  predicate IsNonzeroDigit(c: char) { '1' <= c <= '9' }

  /** `\w` read as ASCII: letters, digits and the underscore. */
  predicate IsWordChar(c: char) {
    'a' <= c <= 'z' || 'A' <= c <= 'Z' || IsDigit(c) || c == '_'
  }

  function DigitValue(c: char): nat
    requires IsDigit(c)
  {
    c as int - '0' as int
  }

  /** The digit character of `d`. */
  function DigitChar(d: nat): char
    requires d < 10
  {
    ('0' as int + d) as char
  }

  predicate FourDigits(s: string) {
    |s| >= 4 && IsDigit(s[0]) && IsDigit(s[1]) && IsDigit(s[2]) && IsDigit(s[3])
  }

  /** `int(s[:4])` for four decimal digits. */
  function Int4(s: string): nat
    requires FourDigits(s)
  {
    DigitValue(s[0]) * 1000 + DigitValue(s[1]) * 100 + DigitValue(s[2]) * 10 + DigitValue(s[3])
  }

  /** The four-digit decimal text of `n`, with leading zeros. */
  function Show4(n: nat): string
    requires n < 10000
  {
    [DigitChar(n / 10 / 10 / 10), DigitChar(n / 10 / 10 % 10), DigitChar(n / 10 % 10), DigitChar(n % 10)]
  }

  lemma DivMod10(x: int, q: int, r: int)
    requires x == 10 * q + r && 0 <= r < 10
    ensures x / 10 == q && x % 10 == r
  {
  }

  lemma Int4Show4(n: nat)
    requires n < 10000
    ensures FourDigits(Show4(n)) && Int4(Show4(n)) == n
  {
    var q1 := n / 10;
    var q2 := q1 / 10;
    assert n == 10 * q1 + n % 10;
    assert q1 == 10 * q2 + q1 % 10;
    assert q2 == 10 * (q2 / 10) + q2 % 10;
  }

  lemma Show4Int4(s: string)
    requires |s| == 4 && FourDigits(s)
    ensures Int4(s) < 10000 && Show4(Int4(s)) == s
  {
    var a, b, c, d := DigitValue(s[0]), DigitValue(s[1]), DigitValue(s[2]), DigitValue(s[3]);
    var n := Int4(s);
    DivMod10(n, 100 * a + 10 * b + c, d);
    DivMod10(100 * a + 10 * b + c, 10 * a + b, c);
    DivMod10(10 * a + b, a, b);
    DivMod10(a, 0, a);
  }

  function LowerChar(c: char): char {
    if 'A' <= c <= 'Z' then (c as int + 32) as char else c
  }

  /** `str.lower` on ASCII letters. */
  function Lower(s: string): string {
    seq(|s|, i requires 0 <= i < |s| => LowerChar(s[i]))
  }

  /** `str.startswith`. */
  predicate StartsWith(s: string, prefix: string) {
    |prefix| <= |s| && s[..|prefix|] == prefix
  }

  /** `str.find` of one character: the first index holding `c`, or -1. */
  function Find(s: string, c: char): (i: int)
    ensures -1 <= i < |s|
    ensures i == -1 <==> c !in s
    ensures 0 <= i ==> s[i] == c && c !in s[..i]
  {
    if |s| == 0 then -1
    else if s[0] == c then 0
    else
      var j := Find(s[1..], c);
      if j < 0 then -1
      else
        assert s[..j + 1] == [s[0]] + s[1..][..j];
        j + 1
  }

  /** `str.split` on a one-character separator. */
  function Split(s: string, c: char): (parts: seq<string>)
    ensures |parts| >= 1
    decreases |s|
  {
    var i := Find(s, c);
    if i < 0 then [s] else [s[..i]] + Split(s[i + 1..], c)
  }

  /** Splitting `a + [c] + b` on `c`, where neither part holds `c`, gives back the two parts. */
  lemma SplitOnce(a: string, c: char, b: string)
    requires c !in a && c !in b
    ensures Find(a + [c] + b, c) == |a|
    ensures Split(a + [c] + b, c) == [a, b]
  {
    var s := a + [c] + b;
    assert s[..|a|] == a;
    assert s[|a|] == c;
    assert s[..|a| + 1] == a + [c];
    assert s[|a| + 1..] == b;
  }

  lemma LowerKeeps(s: string, c: char)
    requires c !in s && !('a' <= c <= 'z')
    ensures c !in Lower(s)
  {
    assert forall i :: 0 <= i < |s| ==> Lower(s)[i] != c by {
      forall i | 0 <= i < |s| ensures Lower(s)[i] != c {
        assert s[i] != c;
      }
    }
  }

  /** `str.replace` of one character by another. */
  function ReplaceChar(s: string, from: char, to: char): string {
    seq(|s|, i requires 0 <= i < |s| => if s[i] == from then to else s[i])
  }
}
