/**
 * The meaning of a restriction expression (Exporter.get_channel_udim_range):
 * tile-number normalization, range expansion, and the scope map the parser
 * builds, written as a fold over the (channel, range) pairs.
 */
module Scope {
  import opened Wrappers
  import opened PyDict
  import opened ScopeLexer

  /** A tile's [u, v] coordinates. */
  datatype Tile = Tile(u: int, v: int)

  /** The tile number a pair stands for. */
  function TileNumber(t: Tile): int { 1001 + t.u + 10 * t.v }

  /**
   * normalize_u / normalize_v: `(n - 1001) % 10` and `(n - 1001) // 10`.
   * Python's floor division and Dafny's Euclidean division agree for the
   * positive divisor 10, also for n = 1000, which the grammar admits.
   */
  function Normalize(n: int): (t: Tile)
    ensures 0 <= t.u <= 9
    ensures TileNumber(t) == n
    ensures n >= 1001 ==> t.v >= 0
  {
    Tile((n - 1001) % 10, (n - 1001) / 10)
  }

  /** Normalization loses nothing: distinct tile numbers give distinct pairs. */
  lemma NormalizeInjective(a: int, b: int)
    requires a != b
    ensures Normalize(a) != Normalize(b)
  {
  }

  /** `[[normalize_u(n), normalize_v(n)] for n in range(start, end + 1)]`. */
  function ExpandRange(start: int, end: int): (tiles: seq<Tile>)
    requires start <= end
    ensures |tiles| == end - start + 1
    ensures forall k :: 0 <= k < |tiles| ==> TileNumber(tiles[k]) == start + k
  {
    var tiles := seq(end - start + 1, k requires 0 <= k < end - start + 1 => Normalize(start + k));
    assert forall k :: 0 <= k < |tiles| ==> tiles[k] == Normalize(start + k);
    tiles
  }

  /** Expanded ranges are in strictly ascending tile order. */
  lemma ExpandRangeAscending(start: int, end: int, i: int, j: int)
    requires start <= end && 0 <= i < j < end - start + 1
    ensures TileNumber(ExpandRange(start, end)[i]) < TileNumber(ExpandRange(start, end)[j])
  {
  }

  /**
   * The tiles of one range token: `*` is the empty list (all tiles), a number
   * is its one pair, a span `start-end` its inclusive expansion; a span with
   * end <= start is invalid (None) and the parser skips the pair.
   */
  function TokenTiles(tok: RangeToken): (r: Option<seq<Tile>>)
    ensures tok.AllTiles? ==> r == Some([])
    ensures tok.Single? ==> r.Some? && |r.value| == 1 && TileNumber(r.value[0]) == tok.n
    ensures tok.Span? ==> (r.None? <==> tok.end <= tok.start)
    ensures tok.Span? && r.Some? ==>
      (|r.value| == tok.end - tok.start + 1
       && forall k :: 0 <= k < |r.value| ==> TileNumber(r.value[k]) == tok.start + k)
  {
    match tok
    case AllTiles => Some([])
    case Single(n) => Some([Normalize(n)])
    case Span(a, b) => if b <= a then None else Some(ExpandRange(a, b))
  }

  /** A scope map: channel (or "*") -> tiles, in insertion order; [] means all tiles. */
  type ScopeMap = OrderedMap<seq<Tile>>

  /** The parser's loop state: `range_maps` and `is_wildcard_setup`. */
  datatype ParseState = ParseState(ranges: ScopeMap, wildcard: bool)

  function Start(): (st: ParseState)
    ensures Valid(st.ranges)
  {
    ParseState(Empty(), false)
  }

  /**
   * One iteration of the loop at 513-559: an unknown channel is skipped; "*"
   * sets the wildcard flag even when its range is then found invalid; a
   * valid range is appended to the channel's entry, creating it if needed.
   */
  function Step(st: ParseState, pair: (string, RangeToken), known: set<string>): (r: ParseState)
    requires Valid(st.ranges)
    ensures Valid(r.ranges)
  {
    var (channel, tok) := pair;
    if channel != "*" && channel !in known then st
    else
      var wildcard := st.wildcard || channel == "*";
      match TokenTiles(tok)
      case None => ParseState(st.ranges, wildcard)
      case Some(tiles) =>
        var entry := if channel in st.ranges.values then st.ranges.values[channel] + tiles else tiles;
        ParseState(Put(st.ranges, channel, entry), wildcard)
  }

  /** The loop run over the first |pairs| pairs. */
  function ParsePairs(pairs: seq<(string, RangeToken)>, known: set<string>): (st: ParseState)
    ensures Valid(st.ranges)
  {
    if |pairs| == 0 then Start()
    else Step(ParsePairs(pairs[..|pairs| - 1], known), pairs[|pairs| - 1], known)
  }

  /**
   * The loop at 560-563: every texture-set channel without an entry gets
   * `all_range_buffers`, which is always a fresh empty list (527-529), so [].
   */
  function Propagate(m: ScopeMap, channels: seq<string>): (r: ScopeMap)
    requires Valid(m)
    ensures Valid(r)
  {
    if |channels| == 0 then m
    else
      var prev := Propagate(m, channels[..|channels| - 1]);
      var c := channels[|channels| - 1];
      if c in prev.values then prev else Put(prev, c, [])
  }

  /**
   * get_channel_udim_range(expression): `known` is the key set of the
   * configured channel dictionary, `channels` the texture set's channel keys
   * in iteration order.
   */
  function ParseScope(expression: string, known: set<string>, channels: seq<string>): (r: ScopeMap)
    ensures Valid(r)
  {
    if expression == "" then Empty()
    else
      var pairs := Tokenize(expression);
      if pairs == [] then Empty()
      else
        var st := ParsePairs(pairs, known);
        if st.wildcard then Propagate(st.ranges, channels) else st.ranges
  }

  // ---------------------------------------------------------------------
  // A reference reading of the parser: each channel's entry, pair by pair.

  /** The pair is one the parser records: a known channel or "*", with a valid range. */
  predicate Recorded(p: (string, RangeToken), known: set<string>) {
    (p.0 == "*" || p.0 in known) && TokenTiles(p.1).Some?
  }

  /** The concatenation, in order, of the tiles of every recorded pair for channel c. */
  function Collected(pairs: seq<(string, RangeToken)>, known: set<string>, c: string): seq<Tile> {
    if |pairs| == 0 then []
    else
      var last := pairs[|pairs| - 1];
      Collected(pairs[..|pairs| - 1], known, c)
        + (if last.0 == c && Recorded(last, known) then TokenTiles(last.1).value else [])
  }

  predicate HasRecorded(pairs: seq<(string, RangeToken)>, known: set<string>, c: string) {
    exists j :: 0 <= j < |pairs| && pairs[j].0 == c && Recorded(pairs[j], known)
  }

  predicate HasWildcard(pairs: seq<(string, RangeToken)>) {
    exists j :: 0 <= j < |pairs| && pairs[j].0 == "*"
  }

  lemma HasRecordedSnoc(pairs: seq<(string, RangeToken)>, known: set<string>, c: string)
    requires |pairs| > 0
    ensures var init, last := pairs[..|pairs| - 1], pairs[|pairs| - 1];
      && (HasRecorded(pairs, known, c) <==> HasRecorded(init, known, c) || (last.0 == c && Recorded(last, known)))
      && (HasWildcard(pairs) <==> HasWildcard(init) || last.0 == "*")
  {
    var init := pairs[..|pairs| - 1];
    assert forall j :: 0 <= j < |init| ==> pairs[j] == init[j];
  }

  /**
   * The parser's result, channel by channel: an entry exists exactly for the
   * channels with a recorded pair, and holds the concatenation of their
   * tiles (repeated channels accumulate); the wildcard flag is set exactly
   * when some pair names "*".
   */
  lemma {:induction false} ParsePairsMeaning(pairs: seq<(string, RangeToken)>, known: set<string>, c: string)
    ensures var st := ParsePairs(pairs, known);
      && (c in st.ranges.values <==> HasRecorded(pairs, known, c))
      && (c in st.ranges.values ==> st.ranges.values[c] == Collected(pairs, known, c))
      && (st.wildcard <==> HasWildcard(pairs))
  {
    if |pairs| > 0 {
      var init, last := pairs[..|pairs| - 1], pairs[|pairs| - 1];
      ParsePairsMeaning(init, known, c);
      HasRecordedSnoc(pairs, known, c);
      if !HasRecorded(init, known, c) {
        CollectedEmpty(init, known, c);
      }
      var st0 := ParsePairs(init, known);
      assert ParsePairs(pairs, known) == Step(st0, last, known);
      var extra := if last.0 == c && Recorded(last, known) then TokenTiles(last.1).value else [];
      assert Collected(pairs, known, c) == Collected(init, known, c) + extra;
    }
  }

  lemma {:induction false} CollectedEmpty(pairs: seq<(string, RangeToken)>, known: set<string>, c: string)
    requires !HasRecorded(pairs, known, c)
    ensures Collected(pairs, known, c) == []
  {
    if |pairs| > 0 {
      var init := pairs[..|pairs| - 1];
      assert forall j :: 0 <= j < |init| ==> pairs[j] == init[j];
      CollectedEmpty(init, known, c);
    }
  }

  /**
   * Propagation adds an empty entry for each listed channel that had none
   * and leaves every existing entry as it was.
   */
  lemma {:induction false} PropagateMeaning(m: ScopeMap, channels: seq<string>, c: string)
    requires Valid(m)
    ensures var r := Propagate(m, channels);
      && (c in r.values <==> c in m.values || c in channels)
      && (c in m.values ==> r.values[c] == m.values[c])
      && (c !in m.values && c in channels ==> r.values[c] == [])
  {
    if |channels| > 0 {
      var init := channels[..|channels| - 1];
      PropagateMeaning(m, init, c);
      assert channels == init + [channels[|channels| - 1]];
    }
  }

  /** The channels of the recorded pairs, in order, repeats included. */
  function RecordedChannels(pairs: seq<(string, RangeToken)>, known: set<string>): seq<string> {
    if |pairs| == 0 then []
    else
      var last := pairs[|pairs| - 1];
      RecordedChannels(pairs[..|pairs| - 1], known) + (if Recorded(last, known) then [last.0] else [])
  }

  /** The parser's map lists its channels in the order they were first recorded. */
  lemma {:induction false} ParsePairsKeys(pairs: seq<(string, RangeToken)>, known: set<string>)
    ensures ParsePairs(pairs, known).ranges.keys == Dedup(RecordedChannels(pairs, known))
  {
    if |pairs| > 0 {
      var init, last := pairs[..|pairs| - 1], pairs[|pairs| - 1];
      ParsePairsKeys(init, known);
      var rc := RecordedChannels(init, known);
      if Recorded(last, known) {
        assert RecordedChannels(pairs, known) == rc + [last.0];
        assert (rc + [last.0])[..|rc|] == rc;
      } else {
        assert RecordedChannels(pairs, known) == rc;
      }
    }
  }

  /** Propagation appends the channels without an entry, in the texture set's order. */
  lemma {:induction false} PropagateKeys(m: ScopeMap, channels: seq<string>)
    requires Valid(m)
    ensures Propagate(m, channels).keys == Dedup(m.keys + channels)
  {
    if |channels| == 0 {
      assert m.keys + channels == m.keys;
      DedupDistinct(m.keys);
    } else {
      var init := channels[..|channels| - 1];
      PropagateKeys(m, init);
      assert (m.keys + channels)[..|m.keys + channels| - 1] == m.keys + init;
    }
  }

  /**
   * get_channel_udim_range, channel by channel: a channel that is neither
   * "*" nor configured never gets an entry from the expression; recorded
   * channels get their accumulated tiles; once "*" has appeared, every
   * texture-set channel without an entry gets []; an empty expression, or
   * one without matches, yields the empty map. The keys come in the order
   * their channels were first recorded, followed, after a "*", by the
   * texture-set channels that had none, in the texture set's order.
   */
  lemma ParseScopeMeaning(expression: string, known: set<string>, channels: seq<string>, c: string)
    ensures var pairs, r := Tokenize(expression), ParseScope(expression, known, channels);
      && (pairs == [] ==> r == Empty())
      && (c in r.values <==> HasRecorded(pairs, known, c) || (HasWildcard(pairs) && c in channels))
      && (HasRecorded(pairs, known, c) ==> r.values[c] == Collected(pairs, known, c))
      && (!HasRecorded(pairs, known, c) && HasWildcard(pairs) && c in channels ==> r.values[c] == [])
      && r.keys == Dedup(RecordedChannels(pairs, known) + (if HasWildcard(pairs) then channels else []))
  {
    var pairs := Tokenize(expression);
    ParsePairsMeaning(pairs, known, c);
    ParsePairsKeys(pairs, known);
    var st := ParsePairs(pairs, known);
    var rc := RecordedChannels(pairs, known);
    if pairs == [] {
      assert rc == [];
    } else if st.wildcard {
      PropagateMeaning(st.ranges, channels, c);
      PropagateKeys(st.ranges, channels);
      DedupPrefix(rc, channels);
    } else {
      assert rc + [] == rc;
    }
  }

  /**
   * A wildcard followed by diffuse: "*" then diffuse. diffuse keeps its own
   * tile; normal, which has no entry of its own, gets [] in the scope map
   * (the wildcard's tile stays under "*", where the export list finds it).
   */
  lemma WildcardExample()
    ensures var r := ParsePairs([("*", Single(1001)), ("diffuse", Single(1002))], {"diffuse", "normal"});
      var m := Propagate(r.ranges, ["diffuse", "normal"]);
      && r.wildcard
      && m.keys == ["*", "diffuse", "normal"]
      && m.values == map["*" := [Tile(0, 0)], "diffuse" := [Tile(1, 0)], "normal" := []]
  {
    var m2 := WildcardThenDiffuse();
    var channels := ["diffuse", "normal"];
    assert channels[..1][..0] == [];
    assert Propagate(m2, channels[..1]) == m2;
    assert Propagate(m2, channels) == Put(m2, "normal", []);
  }

  /** The parser's state after "*:1001" and "diffuse:1002". */
  lemma WildcardThenDiffuse() returns (m2: ScopeMap)
    ensures m2 == OrderedMap(["*", "diffuse"], map["*" := [Tile(0, 0)], "diffuse" := [Tile(1, 0)]])
    ensures ParsePairs([("*", Single(1001)), ("diffuse", Single(1002))], {"diffuse", "normal"}) == ParseState(m2, true)
  {
    var known: set<string> := {"diffuse", "normal"};
    var pairs := [("*", Single(1001)), ("diffuse", Single(1002))];
    assert pairs[..1][..0] == [];
    assert Normalize(1001) == Tile(0, 0) && Normalize(1002) == Tile(1, 0);
    var m1: ScopeMap := OrderedMap(["*"], map["*" := [Tile(0, 0)]]);
    assert ParsePairs(pairs[..1], known) == ParseState(m1, true);
    m2 := OrderedMap(["*", "diffuse"], map["*" := [Tile(0, 0)], "diffuse" := [Tile(1, 0)]]);
  }

  /** An invalid span records nothing for its channel. */
  lemma InvalidSpanExample()
    ensures ParsePairs([("ch", Span(2000, 1000))], {"ch"}).ranges == Empty()
  {
    assert [("ch", Span(2000, 1000))][..0] == [];
  }
}
