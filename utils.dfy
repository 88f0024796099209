/**
 * SurF.utils.reverse_replace: replace the rightmost `occurrence` occurrences
 * of `target` by `replacement`, written in the source as
 * `new.join(s.rsplit(old, occurrence))` with `old` = target, `new` = replacement.
 */
module SurfUtils {
  import opened Wrappers

  /** `sep` occurs in `s` starting at index `i`. */
  predicate OccursAt(s: string, sep: string, i: int) {
    0 <= i && i + |sep| <= |s| && s[i..i + |sep|] == sep
  }

  /** The rightmost start index `<= k` at which `sep` occurs in `s`, or -1. */
  function RFindFrom(s: string, sep: string, k: int): (i: int)
    ensures i == -1 || (0 <= i <= k && OccursAt(s, sep, i))
    ensures forall j :: i < j <= k ==> !OccursAt(s, sep, j)
    decreases k + 1
  {
    if k < 0 then -1
    else if OccursAt(s, sep, k) then k
    else RFindFrom(s, sep, k - 1)
  }

  /** `sep` occurs nowhere in `s`. */
  ghost predicate NoOccurrence(s: string, sep: string) {
    forall j :: !OccursAt(s, sep, j)
  }

  /** `str.rfind`: the start of the rightmost occurrence of `sep` in `s`, or -1. */
  function RFind(s: string, sep: string): (i: int)
    ensures i == -1 || OccursAt(s, sep, i)
    ensures forall j :: i < j ==> !OccursAt(s, sep, j)
  {
    RFindFrom(s, sep, |s| - |sep|)
  }

  /**
   * `s.rsplit(sep, maxsplit)`: split at the rightmost occurrences of `sep`,
   * at most `maxsplit` times (no limit when `maxsplit` is negative), each
   * search looking only left of the previous split point.
   */
  function RSplit(s: string, sep: string, maxsplit: int): (parts: seq<string>)
    requires |sep| > 0
    ensures |parts| >= 1
    decreases |s|
  {
    var i := RFind(s, sep);
    if maxsplit == 0 || i < 0 then [s]
    else RSplit(s[..i], sep, if maxsplit > 0 then maxsplit - 1 else maxsplit) + [s[i + |sep|..]]
  }

  /** `sep.join(parts)`. */
  function Join(sep: string, parts: seq<string>): string {
    if |parts| == 0 then ""
    else if |parts| == 1 then parts[0]
    else Join(sep, parts[..|parts| - 1]) + sep + parts[|parts| - 1]
  }

  /** reverse_replace(s, target, replacement, occurrence); `rsplit` raises ValueError on an empty `target`. */
  function ReverseReplace(s: string, target: string, replacement: string, occurrence: int): (r: Result<string>)
    ensures r.Err? <==> |target| == 0
    ensures r.Err? ==> r.error == EmptySeparator
  {
    if |target| == 0 then Err(EmptySeparator)
    else Ok(Join(replacement, RSplit(s, target, occurrence)))
  }

  /** Number of non-overlapping occurrences of `sep` found by scanning `s` from the right. */
  function CountFromRight(s: string, sep: string): nat
    requires |sep| > 0
    decreases |s|
  {
    var i := RFind(s, sep);
    if i < 0 then 0 else 1 + CountFromRight(s[..i], sep)
  }

  function Min(a: int, b: int): int { if a <= b then a else b }

  lemma JoinSnoc(sep: string, parts: seq<string>, last: string)
    requires |parts| >= 1
    ensures Join(sep, parts + [last]) == Join(sep, parts) + sep + last
  {
    assert (parts + [last])[..|parts|] == parts;
  }

  /** Joining the pieces of `rsplit` with the separator itself gives back the string. */
  lemma {:induction false} JoinRSplit(s: string, sep: string, maxsplit: int)
    requires |sep| > 0
    ensures Join(sep, RSplit(s, sep, maxsplit)) == s
    decreases |s|
  {
    var i := RFind(s, sep);
    if maxsplit != 0 && i >= 0 {
      var n := if maxsplit > 0 then maxsplit - 1 else maxsplit;
      JoinRSplit(s[..i], sep, n);
      JoinSnoc(sep, RSplit(s[..i], sep, n), s[i + |sep|..]);
      assert s == s[..i] + s[i..i + |sep|] + s[i + |sep|..];
    }
  }

  /** Replacing a token by itself changes nothing. */
  lemma ReverseReplaceSelf(s: string, target: string, occurrence: int)
    requires |target| > 0
    ensures ReverseReplace(s, target, target, occurrence) == Ok(s)
  {
    JoinRSplit(s, target, occurrence);
  }

  /** Without an occurrence of `target`, or with occurrence 0, the string is returned unchanged. */
  lemma ReverseReplaceUnchanged(s: string, target: string, replacement: string, occurrence: int)
    requires |target| > 0
    requires occurrence == 0 || NoOccurrence(s, target)
    ensures ReverseReplace(s, target, replacement, occurrence) == Ok(s)
  {
    if occurrence != 0 {
      assert RFind(s, target) == -1;
    }
  }

  /**
   * With occurrence 1 and at least one occurrence of `target`, exactly the
   * rightmost occurrence is replaced: the text before it is kept and the
   * text after it holds no further occurrence of `target`.
   */
  lemma ReverseReplaceLast(s: string, target: string, replacement: string, k: int)
    requires |target| > 0 && OccursAt(s, target, k)
    ensures var i := RFind(s, target);
      && k <= i && OccursAt(s, target, i)
      && ReverseReplace(s, target, replacement, 1) == Ok(s[..i] + replacement + s[i + |target|..])
      && NoOccurrence(s[i + |target|..], target)
  {
    var i := RFind(s, target);
    assert i >= k;
    var tail := s[i + |target|..];
    assert RSplit(s[..i], target, 0) == [s[..i]];
    assert RSplit(s, target, 1) == [s[..i], tail];
    JoinSnoc(replacement, [s[..i]], tail);
    assert [s[..i]] + [tail] == [s[..i], tail];
    forall j | OccursAt(tail, target, j) ensures false {
      assert tail[j..j + |target|] == s[i + |target| + j..i + |target| + j + |target|];
      assert OccursAt(s, target, i + |target| + j);
    }
  }

  /**
   * `rsplit` makes min(maxsplit, CountFromRight) splits (CountFromRight when
   * maxsplit is negative).
   */
  lemma {:induction false} RSplitCount(s: string, sep: string, maxsplit: int)
    requires |sep| > 0
    ensures |RSplit(s, sep, maxsplit)| - 1
      == if maxsplit < 0 then CountFromRight(s, sep) else Min(maxsplit, CountFromRight(s, sep))
    decreases |s|
  {
    var i := RFind(s, sep);
    if maxsplit != 0 && i >= 0 {
      RSplitCount(s[..i], sep, if maxsplit > 0 then maxsplit - 1 else maxsplit);
    }
  }

  /** Joining the same pieces with a longer separator grows the result by the difference per gap. */
  lemma {:induction false} JoinLength(a: string, b: string, parts: seq<string>)
    requires |parts| >= 1
    ensures |Join(b, parts)| == |Join(a, parts)| + (|parts| - 1) * (|b| - |a|)
    decreases |parts|
  {
    if |parts| > 1 {
      var init := parts[..|parts| - 1];
      JoinLength(a, b, init);
      var n, d := |init|, |b| - |a|;
      assert (n - 1) * d + d == n * d;
    }
  }

  /**
   * The result is longer by |replacement| - |target| for every replaced occurrence, and
   * the number replaced is min(occurrence, CountFromRight(s, target)).
   */
  lemma ReverseReplaceLength(s: string, target: string, replacement: string, occurrence: int)
    requires |target| > 0
    ensures var k := if occurrence < 0 then CountFromRight(s, target) else Min(occurrence, CountFromRight(s, target));
      |ReverseReplace(s, target, replacement, occurrence).value| == |s| + k * (|replacement| - |target|)
  {
    RSplitCount(s, target, occurrence);
    JoinRSplit(s, target, occurrence);
    JoinLength(target, replacement, RSplit(s, target, occurrence));
  }
}
