/**
 * Exporter.get_export_list: the "exportList" entries built from the scope
 * map, written as a fold over the snapshot of its keys that the loop walks.
 * The loop pops "*" and every key it turns into an entry, so the fold also
 * yields the scope map that is left behind.
 */
module ExportList {
  import opened Wrappers
  import opened PyDict
  import opened ExportConfig
  import opened Naming
  import opened Scope

  datatype Filter = Filter(outputMaps: seq<string>, uvTiles: Option<seq<Tile>>)

  /** One "exportList" entry: {"rootPath": ..., "filter": {...}} with "filter" optional. */
  datatype ExportEntry = ExportEntry(rootPath: string, filter: Option<Filter>)

  /** What the entries are named from: the settings, the project title and the texture set. */
  datatype ListContext = ListContext(settings: ExportSettings, title: string, shader: string)

  /** The entry without a filter: the whole texture set. */
  function WholeSet(ctx: ListContext): ExportEntry {
    ExportEntry(ctx.shader, None)
  }

  /** "uvTiles" of an entry: the channel's own tiles, else the wildcard's, else no key at all. */
  function TilesFor(own: seq<Tile>, wildcard: seq<Tile>): (r: Option<seq<Tile>>)
    ensures r.None? <==> |own| == 0 && |wildcard| == 0
    ensures |own| > 0 ==> r == Some(own)
    ensures |own| == 0 && |wildcard| > 0 ==> r == Some(wildcard)
  {
    if |own| > 0 then Some(own) else if |wildcard| > 0 then Some(wildcard) else None
  }

  /** The entry for the channel `key` with the tiles popped for it. */
  function Entry(key: string, tiles: seq<Tile>, wildcard: seq<Tile>, ctx: ListContext): ExportEntry
    requires key in ctx.settings.channelMaps
  {
    ExportEntry(ctx.shader, Some(Filter(
      [ExportName(ctx.settings, ctx.title, ctx.shader, ctx.settings.channelMaps[key])],
      TilesFor(tiles, wildcard))))
  }

  /** The keys that have a ChannelMaps entry, in their order. */
  function Selected(keys: seq<string>, channelMaps: map<string, string>): (r: seq<string>)
    ensures forall k :: k in r <==> k in keys && k in channelMaps
    ensures forall k :: k in r ==> k in channelMaps
  {
    if |keys| == 0 then []
    else
      var prev := Selected(keys[..|keys| - 1], channelMaps);
      var k := keys[|keys| - 1];
      assert forall x :: x in keys <==> x in keys[..|keys| - 1] || x == k;
      if k in channelMaps then prev + [k] else prev
  }

  /** The loop over the snapshot `keys` of `rest`: the entries appended and the map it pops down to. */
  function Consume(rest: ScopeMap, keys: seq<string>, wildcard: seq<Tile>, ctx: ListContext): (r: (seq<ExportEntry>, ScopeMap))
    requires Valid(rest)
    ensures Valid(r.1)
  {
    if |keys| == 0 then ([], rest)
    else
      var (entries, m) := Consume(rest, keys[..|keys| - 1], wildcard, ctx);
      var ch := keys[|keys| - 1];
      if ch !in ctx.settings.channelMaps then (entries, m)
      else (entries + [Entry(ch, Get(m, ch, []), wildcard, ctx)], Remove(m, ch))
  }

  /** get_export_list(is_meshmap) on the scope map `scope`: the list and the scope map left. */
  function ExportListOf(scope: ScopeMap, isMeshmap: bool, ctx: ListContext): (r: (seq<ExportEntry>, ScopeMap))
    requires Valid(scope)
    ensures Valid(r.1)
  {
    if isMeshmap || |scope.keys| == 0 then ([WholeSet(ctx)], scope)
    else
      var rest := Remove(scope, "*");
      Consume(rest, rest.keys, Get(scope, "*", []), ctx)
  }

  /**
   * Over distinct keys the loop makes one entry per selected key, in order,
   * from the tiles the key held before the loop, and pops exactly those keys.
   */
  lemma {:induction false} ConsumeMeaning(rest: ScopeMap, keys: seq<string>, wildcard: seq<Tile>, ctx: ListContext)
    requires Valid(rest) && Distinct(keys)
    ensures var (entries, left) := Consume(rest, keys, wildcard, ctx);
      var sel := Selected(keys, ctx.settings.channelMaps);
      && |entries| == |sel|
      && (forall i :: 0 <= i < |sel| ==> entries[i] == Entry(sel[i], Get(rest, sel[i], []), wildcard, ctx))
      && left.values == rest.values - set k | k in sel
  {
    if |keys| > 0 {
      var init := keys[..|keys| - 1];
      assert Distinct(init) by {
        forall i, j | 0 <= i < j < |init| ensures init[i] != init[j] {
          assert init[i] == keys[i] && init[j] == keys[j];
        }
      }
      ConsumeMeaning(rest, init, wildcard, ctx);
      var ch := keys[|keys| - 1];
      var sel := Selected(init, ctx.settings.channelMaps);
      assert ch !in init by {
        forall i | 0 <= i < |init| ensures init[i] != ch {
          assert init[i] == keys[i];
        }
      }
      assert ch !in sel;
      if ch in ctx.settings.channelMaps {
        var m := Consume(rest, init, wildcard, ctx).1;
        assert Get(m, ch, []) == Get(rest, ch, []);
        assert (set k | k in sel + [ch]) == (set k | k in sel) + {ch};
      }
    }
  }

  /**
   * get_export_list on a non-empty scope map without a meshmap request: one
   * entry per scope-map key with a ChannelMaps entry, in map order, naming
   * that channel's export name and carrying its own tiles, else the
   * wildcard's, else none; "*" and those keys are popped, the rest stays.
   */
  lemma ExportListMeaning(scope: ScopeMap, ctx: ListContext)
    requires Valid(scope) && |scope.keys| > 0
    ensures var (entries, left) := ExportListOf(scope, false, ctx);
      var sel := Selected(Without(scope.keys, "*"), ctx.settings.channelMaps);
      && |entries| == |sel|
      && (forall i :: 0 <= i < |sel| ==>
            && sel[i] in scope.values
            && entries[i].rootPath == ctx.shader
            && entries[i].filter == Some(Filter(
                 [ExportName(ctx.settings, ctx.title, ctx.shader, ctx.settings.channelMaps[sel[i]])],
                 TilesFor(scope.values[sel[i]], Get(scope, "*", [])))))
      && (forall k :: k in left.values <==> k in scope.values && k != "*" && k !in ctx.settings.channelMaps)
      && (forall k :: k in left.values ==> left.values[k] == scope.values[k])
  {
    var rest := Remove(scope, "*");
    ConsumeMeaning(rest, rest.keys, Get(scope, "*", []), ctx);
  }

  /** A meshmap request, or an empty scope map, exports the whole texture set and pops nothing. */
  lemma WholeSetCases(scope: ScopeMap, isMeshmap: bool, ctx: ListContext)
    requires Valid(scope) && (isMeshmap || scope.values == map[])
    ensures ExportListOf(scope, isMeshmap, ctx) == ([ExportEntry(ctx.shader, None)], scope)
  {
    if !isMeshmap {
      assert forall i :: 0 <= i < |scope.keys| ==> scope.keys[i] in scope.values;
    }
  }
}
