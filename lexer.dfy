/**
 * The tokenizer of Exporter.get_channel_udim_range: `re.findall` of
 * `(\w[\w\d]+|\*):(\*|(?:[1-9]\d{3})(?:-[1-9]\d{3})?)` over the expression,
 * giving (channel, range) pairs. The range text is kept already classified
 * as the three forms the parser distinguishes.
 */
module ScopeLexer {
  import opened PyStr
  import opened Wrappers

  /** `*`, `DDDD` or `DDDD-DDDD`, with the numbers as `int` reads them. */
  datatype RangeToken = AllTiles | Single(n: int) | Span(start: int, end: int)

  /** A number of the grammar, `[1-9]\d{3}`: 1000 through 9999. */
  predicate IsTileNumber(n: int) { 1000 <= n <= 9999 }

  predicate WellFormedRange(tok: RangeToken) {
    match tok
    case AllTiles => true
    case Single(n) => IsTileNumber(n)
    case Span(a, b) => IsTileNumber(a) && IsTileNumber(b)
  }

  /** A channel the pattern can capture: `*`, or two or more word characters. */
  predicate WellFormedChannel(c: string) {
    c == "*" || (|c| >= 2 && forall k :: 0 <= k < |c| ==> IsWordChar(c[k]))
  }

  predicate WellFormedPair(p: (string, RangeToken)) {
    WellFormedChannel(p.0) && WellFormedRange(p.1)
  }

  /** `[1-9]\d{3}` matches at index i. */
  predicate TileAt(s: string, i: nat) {
    i + 4 <= |s| && IsNonzeroDigit(s[i]) && FourDigits(s[i..])
  }

  /** The end of the run of word characters starting at i. */
  function WordEnd(s: string, i: nat): (j: nat)
    requires i <= |s|
    ensures i <= j <= |s| && (j == |s| || !IsWordChar(s[j]))
    ensures forall k :: i <= k < j ==> IsWordChar(s[k])
    decreases |s| - i
  {
    if i < |s| && IsWordChar(s[i]) then WordEnd(s, i + 1) else i
  }

  /** The range group at index i: its token and the index after it. */
  function MatchRange(s: string, i: nat): (r: Option<(RangeToken, nat)>)
    ensures r.Some? ==> WellFormedRange(r.value.0) && i < r.value.1 <= |s|
  {
    if i < |s| && s[i] == '*' then Some((AllTiles, i + 1))
    else if TileAt(s, i) then
      Int4Show4Bound(s[i..]);
      if i + 4 < |s| && s[i + 4] == '-' && TileAt(s, i + 5) then
        Int4Show4Bound(s[i + 5..]);
        Some((Span(Int4(s[i..]), Int4(s[i + 5..])), i + 9))
      else Some((Single(Int4(s[i..])), i + 4))
    else None
  }

  lemma Int4Show4Bound(t: string)
    requires FourDigits(t) && IsNonzeroDigit(t[0])
    ensures IsTileNumber(Int4(t))
  {
  }

  /**
   * The channel group and the colon at index i: the channel and the index
   * after the colon. A word-character run can only be followed by ':' at
   * its end, so backtracking into a shorter run never matches.
   */
  function MatchChannel(s: string, i: nat): (r: Option<(string, nat)>)
    requires i < |s|
    ensures r.Some? ==> WellFormedChannel(r.value.0) && i < r.value.1 <= |s|
  {
    if IsWordChar(s[i]) then
      var j := WordEnd(s, i);
      if j - i >= 2 && j < |s| && s[j] == ':' then Some((s[i..j], j + 1)) else None
    else if s[i] == '*' && i + 1 < |s| && s[i + 1] == ':' then Some(("*", i + 2))
    else None
  }

  /** One match of the whole pattern starting exactly at index i. */
  function MatchAt(s: string, i: nat): (r: Option<((string, RangeToken), nat)>)
    requires i < |s|
    ensures r.Some? ==> WellFormedPair(r.value.0) && i < r.value.1 <= |s|
  {
    match MatchChannel(s, i)
    case None => None
    case Some((channel, j)) =>
      match MatchRange(s, j)
      case None => None
      case Some((tok, k)) => Some(((channel, tok), k))
  }

  /** `re.findall` from index i: leftmost matches, each search resuming where the last match ended. */
  function FindAll(s: string, i: nat): (pairs: seq<(string, RangeToken)>)
    ensures forall k :: 0 <= k < |pairs| ==> WellFormedPair(pairs[k])
    decreases |s| - i
  {
    if i >= |s| then []
    else
      match MatchAt(s, i)
      case None => FindAll(s, i + 1)
      case Some((pair, j)) => [pair] + FindAll(s, j)
  }

  /** The pairs of a whole restriction expression. */
  function Tokenize(expression: string): (pairs: seq<(string, RangeToken)>)
    ensures expression == "" ==> pairs == []
    ensures forall k :: 0 <= k < |pairs| ==> WellFormedPair(pairs[k])
  {
    FindAll(expression, 0)
  }

  /** One channel restricted to the tiles 1001 through 1003. */
  lemma TokenizeSpan()
    ensures Tokenize("ch:1001-1003") == [("ch", Span(1001, 1003))]
  {
    var s := "ch:1001-1003";
    assert s[0] == 'c' && s[1] == 'h' && s[2] == ':';
    assert WordEnd(s, 2) == 2;
    assert WordEnd(s, 1) == 2;
    assert WordEnd(s, 0) == 2;
    assert s[0..2] == "ch";
    assert MatchChannel(s, 0) == Some(("ch", 3));
    assert Int4(s[3..]) == 1001;
    assert Int4(s[8..]) == 1003;
    assert MatchRange(s, 3) == Some((Span(1001, 1003), 12));
  }
}
