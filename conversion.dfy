/**
 * The convert pairs of Exporter.output_textures: each exported texture path,
 * with backslashes turned into '/', paired with its conversion destination,
 * found by swapping the rightmost export-directory token of its directory
 * for the convert directory and the rightmost export-format token of its
 * file name for the convert format. Paths follow posixpath on '/'.
 */
module Conversion {
  import opened Wrappers
  import opened PyStr
  import opened SurfUtils
  import opened ExportConfig

  // ---------------------------------------------------------------------
  // os.path on '/'-separated paths

  /** `str.rstrip(c)`: drop every trailing `c`. */
  function RStrip(s: string, c: char): (r: string)
    ensures |r| <= |s| && r == s[..|r|]
    ensures |r| > 0 ==> r[|r| - 1] != c
    ensures forall j :: |r| <= j < |s| ==> s[j] == c
  {
    if |s| == 0 || s[|s| - 1] != c then s else RStrip(s[..|s| - 1], c)
  }

  /** Index just past the last '/', or 0 when there is none. */
  function LastSlash(p: string): (i: nat)
    ensures i <= |p|
    ensures i > 0 ==> p[i - 1] == '/'
    ensures forall j :: i <= j < |p| ==> p[j] != '/'
  {
    var k := RFind(p, "/");
    assert forall j :: k < j < |p| ==> p[j] != '/' by {
      forall j | k < j < |p| ensures p[j] != '/' {
        assert p[j..j + 1] == [p[j]];
        assert !OccursAt(p, "/", j);
      }
    }
    if k >= 0 then assert p[k..k + 1] == "/"; k + 1 else 0
  }

  /** `os.path.basename`: the text after the last '/'. */
  function BaseName(p: string): (b: string)
    ensures '/' !in b
    ensures |b| <= |p| && p == p[..|p| - |b|] + b
    ensures |b| == |p| || p[|p| - |b| - 1] == '/'
  {
    var i := LastSlash(p);
    assert forall j :: 0 <= j < |p| - i ==> p[i..][j] == p[i + j];
    p[i..]
  }

  /** `os.path.dirname`: the text before the last '/', trailing slashes stripped unless it is all slashes. */
  function DirName(p: string): string {
    var head := p[..LastSlash(p)];
    if |head| > 0 && exists j :: 0 <= j < |head| && head[j] != '/' then RStrip(head, '/') else head
  }

  /** `os.path.join(a, b)`: an absolute `b` wins; otherwise one '/' is put between them when needed. */
  function JoinPath(a: string, b: string): string {
    if |b| > 0 && b[0] == '/' then b
    else if |a| == 0 || a[|a| - 1] == '/' then a + b
    else a + "/" + b
  }

  /**
   * A path built as `d/b`, from a directory that does not end in '/' and a
   * file name without '/', falls apart again into `d` and `b`.
   */
  lemma SplitPath(d: string, b: string)
    requires |d| > 0 && d[|d| - 1] != '/' && '/' !in b
    ensures DirName(d + "/" + b) == d
    ensures BaseName(d + "/" + b) == b
    ensures JoinPath(DirName(d + "/" + b), BaseName(d + "/" + b)) == d + "/" + b
  {
    var p := d + "/" + b;
    assert p[|d|] == '/';
    assert forall j :: |d| < j < |p| ==> p[j] == b[j - |d| - 1];
    var i := LastSlash(p);
    assert i == |d| + 1;
    var head := p[..i];
    assert head == d + "/";
    assert head[|d| - 1] != '/';
    assert RStrip(head, '/') == RStrip(d, '/') == d;
  }

  // ---------------------------------------------------------------------
  // The rightmost-occurrence substitution, stated on its own

  /** `s` with its rightmost occurrence of `t` replaced by `r` (unchanged without one). */
  function ReplaceRightmost(s: string, t: string, r: string): string {
    var i := RFind(s, t);
    if i < 0 then s else Splice(s, i, |t|, r)
  }

  /** `s` with the `n` characters at `i` replaced by `r`. */
  function Splice(s: string, i: nat, n: nat, r: string): string
    requires i + n <= |s|
  {
    s[..i] + r + s[i + n..]
  }

  /** reverse_replace with occurrence 1 is exactly the rightmost substitution. */
  lemma ReverseReplaceOnce(s: string, t: string, r: string)
    requires |t| > 0
    ensures ReverseReplace(s, t, r, 1) == Ok(ReplaceRightmost(s, t, r))
  {
    var i := RFind(s, t);
    if i < 0 {
      assert NoOccurrence(s, t);
      ReverseReplaceUnchanged(s, t, r, 1);
    } else {
      ReverseReplaceLast(s, t, r, i);
    }
  }

  /**
   * Text in front of a part that holds the token is never touched: the
   * substitution happens inside that part.
   */
  lemma ReplaceRightmostPrefix(pre: string, s: string, t: string, r: string, k: int)
    requires |t| > 0 && OccursAt(s, t, k)
    ensures ReplaceRightmost(pre + s, t, r) == pre + ReplaceRightmost(s, t, r)
  {
    RFindShift(pre, s, t, k);
    SpliceShift(pre, s, RFind(s, t), |t|, r);
  }

  lemma SpliceShift(pre: string, s: string, i: nat, n: nat, r: string)
    requires i + n <= |s|
    ensures Splice(pre + s, |pre| + i, n, r) == pre + Splice(s, i, n, r)
  {
    assert (pre + s)[..|pre| + i] == pre + s[..i];
    assert (pre + s)[|pre| + i + n..] == s[i + n..];
  }

  /** The rightmost occurrence in `pre + s` is the rightmost one in `s`, when `s` has one. */
  lemma RFindShift(pre: string, s: string, t: string, k: int)
    requires OccursAt(s, t, k)
    ensures RFind(s, t) >= k
    ensures RFind(pre + s, t) == |pre| + RFind(s, t)
  {
    var i' := RFind(s, t);
    OccursShift(pre, s, t, i');
    var i := RFind(pre + s, t);
    assert i >= |pre| + i';
    OccursShift(pre, s, t, i - |pre|);
  }

  /** Occurrences in `s` are occurrences in `pre + s`, shifted by |pre|. */
  lemma OccursShift(pre: string, s: string, t: string, j: int)
    requires j >= 0
    ensures OccursAt(pre + s, t, |pre| + j) <==> OccursAt(s, t, j)
  {
    if 0 <= j && j + |t| <= |s| {
      assert (pre + s)[|pre| + j..|pre| + j + |t|] == s[j..j + |t|];
    }
  }

  /** Replacing the rightmost token keeps the result non-empty and its last character not '/'. */
  lemma ReplaceRightmostEnd(s: string, t: string, r: string)
    requires |s| > 0 && s[|s| - 1] != '/' && |r| > 0 && '/' !in r
    ensures var x := ReplaceRightmost(s, t, r); |x| > 0 && x[|x| - 1] != '/'
  {
    var i := RFind(s, t);
    if i >= 0 {
      var x := s[..i] + r + s[i + |t|..];
      if i + |t| < |s| {
        assert x[|x| - 1] == s[|s| - 1];
      } else {
        assert x[|x| - 1] == r[|r| - 1];
      }
    }
  }

  /** A file name without '/' keeps none when a token is replaced by text without '/'. */
  lemma ReplaceRightmostNoSlash(s: string, t: string, r: string)
    requires '/' !in s && '/' !in r
    ensures '/' !in ReplaceRightmost(s, t, r)
  {
    var i := RFind(s, t);
    if i >= 0 {
      assert forall c :: c in s[..i] ==> c in s;
      assert forall c :: c in s[i + |t|..] ==> c in s;
    }
  }

  // ---------------------------------------------------------------------
  // Convert pairs

  /** The destination of one exported texture (already '/'-normalised), lines 691-697. */
  function ConvertDestination(img: string, settings: ExportSettings): (r: Result<string>)
    ensures r.Err? <==> settings.exportDirectory == "" || settings.exportFormat == ""
  {
    var dir := ReverseReplace(DirName(img), settings.exportDirectory, settings.convertDirectory, 1);
    var file := ReverseReplace(BaseName(img), settings.exportFormat, settings.convertFormat, 1);
    if dir.Err? then Err(dir.error)
    else if file.Err? then Err(file.error)
    else Ok(ReplaceChar(JoinPath(dir.value, file.value), '\\', '/'))
  }

  /**
   * The destination of `d/b` is the directory with its rightmost export
   * directory token swapped, a '/', and the file name with its rightmost
   * export format token swapped, backslashes normalised.
   */
  lemma ConvertDestinationSplit(d: string, b: string, settings: ExportSettings)
    requires |d| > 0 && d[|d| - 1] != '/' && '/' !in b
    requires settings.exportDirectory != "" && settings.exportFormat != ""
    requires settings.convertDirectory != "" && '/' !in settings.convertDirectory && '/' !in settings.convertFormat
    ensures ConvertDestination(d + "/" + b, settings) ==
      Ok(ReplaceChar(
        ReplaceRightmost(d, settings.exportDirectory, settings.convertDirectory) + "/"
          + ReplaceRightmost(b, settings.exportFormat, settings.convertFormat), '\\', '/'))
  {
    SplitPath(d, b);
    ReverseReplaceOnce(d, settings.exportDirectory, settings.convertDirectory);
    ReverseReplaceOnce(b, settings.exportFormat, settings.convertFormat);
    ReplaceRightmostEnd(d, settings.exportDirectory, settings.convertDirectory);
    var b' := ReplaceRightmost(b, settings.exportFormat, settings.convertFormat);
    ReplaceRightmostNoSlash(b, settings.exportFormat, settings.convertFormat);
    assert |b'| > 0 ==> b'[0] in b';
  }

  /**
   * Only the last directory segment holding the export directory token is
   * rewritten: every segment before it is carried over as it was.
   */
  lemma EarlierSegmentsKept(pre: string, seg: string, b: string, settings: ExportSettings, k: int)
    requires |seg| > 0 && seg[|seg| - 1] != '/' && '/' !in b
    requires OccursAt(seg, settings.exportDirectory, k)
    requires settings.exportDirectory != "" && settings.exportFormat != ""
    requires settings.convertDirectory != "" && '/' !in settings.convertDirectory && '/' !in settings.convertFormat
    ensures ConvertDestination(pre + seg + "/" + b, settings) ==
      Ok(ReplaceChar(
        pre + ReplaceRightmost(seg, settings.exportDirectory, settings.convertDirectory) + "/"
          + ReplaceRightmost(b, settings.exportFormat, settings.convertFormat), '\\', '/'))
  {
    ConvertDestinationSplit(pre + seg, b, settings);
    assert pre + seg + "/" + b == (pre + seg) + "/" + b;
    ReplaceRightmostPrefix(pre, seg, settings.exportDirectory, settings.convertDirectory, k);
  }

  /** The convert_pairs comprehension over the exported textures, raising at the first failure. */
  function ConvertPairs(textures: seq<string>, settings: ExportSettings): (r: Result<seq<(string, string)>>)
    ensures r.Err? <==> |textures| > 0 && (settings.exportDirectory == "" || settings.exportFormat == "")
    ensures r.Ok? ==> |r.value| == |textures|
    ensures r.Ok? ==> forall i :: 0 <= i < |textures| ==>
      && r.value[i].0 == ReplaceChar(textures[i], '\\', '/')
      && ConvertDestination(r.value[i].0, settings) == Ok(r.value[i].1)
  {
    if |textures| == 0 then Ok([])
    else
      var img := ReplaceChar(textures[0], '\\', '/');
      match ConvertDestination(img, settings)
      case Err(e) => Err(e)
      case Ok(dest) =>
        match ConvertPairs(textures[1..], settings)
        case Err(e) => Err(e)
        case Ok(rest) => Ok([(img, dest)] + rest)
  }
}
