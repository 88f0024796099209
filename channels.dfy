/**
 * The channel resolver: the key scheme of TextureSetWrapper.get_channels and
 * the map descriptions Exporter.get_channel_maps builds from them, written
 * as a fold over the texture set's channel keys.
 */
module Channels {
  import opened Wrappers
  import opened PyStr
  import opened PyDict
  import opened ExportConfig
  import opened Naming

  /** A host channel: its user label and `str(channel.format())`, such as "ChannelFormat.sRGB8". */
  datatype Channel = Channel(userLabel: string, format: string)

  /** The key get_channels files a channel under: the lower-cased type name, plus "#label" for User types. */
  function ChannelKey(typeName: string, ch: Channel): string {
    if StartsWith(typeName, "User") then Lower(typeName) + "#" + ch.userLabel else Lower(typeName)
  }

  /** get_channels: `self.channels[key] = channel` for each present channel type, in enumeration order. */
  function AddChannels(table: OrderedMap<Channel>, present: seq<(string, Channel)>): (r: OrderedMap<Channel>)
    requires Valid(table)
    ensures Valid(r)
  {
    if |present| == 0 then table
    else
      var (typeName, ch) := present[|present| - 1];
      Put(AddChannels(table, present[..|present| - 1]), ChannelKey(typeName, ch), ch)
  }

  /** The channel a key was last assigned from, scanning the present channel types. */
  function LastWithKey(present: seq<(string, Channel)>, k: string): Option<Channel> {
    if |present| == 0 then None
    else if ChannelKey(present[|present| - 1].0, present[|present| - 1].1) == k then Some(present[|present| - 1].1)
    else LastWithKey(present[..|present| - 1], k)
  }

  /**
   * get_channels, key by key: a key is present when it was there before or
   * some present channel type files under it, and then holds the last such
   * channel; other keys keep what they held.
   */
  lemma {:induction false} AddChannelsMeaning(table: OrderedMap<Channel>, present: seq<(string, Channel)>, k: string)
    requires Valid(table)
    ensures var r := AddChannels(table, present);
      && (k in r.values <==> k in table.values || LastWithKey(present, k).Some?)
      && (LastWithKey(present, k).Some? ==> r.values[k] == LastWithKey(present, k).value)
      && (LastWithKey(present, k).None? && k in table.values ==> r.values[k] == table.values[k])
  {
    if |present| > 0 {
      AddChannelsMeaning(table, present[..|present| - 1], k);
    }
  }

  /**
   * The key scheme and the resolver's split agree: a User channel's key
   * splits at its first '#' back into the lower-cased type name and the
   * channel's label; other types' keys are not split.
   */
  lemma KeySchemeSplits(typeName: string, ch: Channel)
    requires '#' !in typeName
    ensures StartsWith(typeName, "User") && '#' !in ch.userLabel ==>
      SplitsKey(ChannelKey(typeName, ch)) && Split(ChannelKey(typeName, ch), '#') == [Lower(typeName), ch.userLabel]
    ensures !StartsWith(typeName, "User") ==> !SplitsKey(ChannelKey(typeName, ch))
  {
    LowerKeeps(typeName, '#');
    if StartsWith(typeName, "User") && '#' !in ch.userLabel {
      SplitOnce(Lower(typeName), '#', ch.userLabel);
    }
  }

  // ---------------------------------------------------------------------
  // Map descriptions

  datatype Component = R | G | B | L
  datatype SourceMapType = DocumentMap | VirtualMap | MeshMap

  /** One entry of a map's "channels" list. */
  datatype SubChannel = SubChannel(destChannel: Component, srcChannel: Component, srcMapType: SourceMapType, srcMapName: string)

  /** A map's "parameters": absent keys are None. */
  datatype MapParameters = MapParameters(fileFormat: Option<string>, bitDepth: Option<string>)

  /** One element of a preset's "maps": fileName, channels, parameters. */
  datatype MapDescription = MapDescription(fileName: string, channels: seq<SubChannel>, parameters: MapParameters)

  const BIT_DEPTH_8: seq<string> := ["ChannelFormat.sRGB8", "ChannelFormat.L8", "ChannelFormat.RGB8"]
  const BIT_DEPTH_16: seq<string> := [
    "ChannelFormat.L16", "ChannelFormat.RGB16", "ChannelFormat.L16F", "ChannelFormat.RGB16F"
  ]
  const BIT_DEPTH_32: seq<string> := ["ChannelFormat.L32F", "ChannelFormat.RGB32F"]
  const SRGB8 := "ChannelFormat.sRGB8"

  /** The "bitDepth" parameter: "8" when forced, else by the three format lists; no key for other formats. */
  function BitDepth(format: string, forceEightBits: bool): (r: Option<string>)
    ensures forceEightBits ==> r == Some("8")
    ensures !forceEightBits ==>
      && (r == Some("8") <==> format in BIT_DEPTH_8)
      && (r == Some("16") <==> format in BIT_DEPTH_16)
      && (r == Some("32") <==> format in BIT_DEPTH_32)
      && (r.None? <==> format !in BIT_DEPTH_8 && format !in BIT_DEPTH_16 && format !in BIT_DEPTH_32)
  {
    if forceEightBits then Some("8")
    else if format in BIT_DEPTH_8 then Some("8")
    else if format in BIT_DEPTH_16 then Some("16")
    else if format in BIT_DEPTH_32 then Some("32")
    else None
  }

  /** `('L')` when `str(channel_format).startswith('L')`, otherwise R, G, B. */
  function Components(format: string): seq<Component> {
    if StartsWith(format, "L") then [L] else [R, G, B]
  }

  /**
   * The single-component test looks at the text "ChannelFormat.…", which
   * never starts with 'L': every listed format, the luminance ones
   * included, is exported as three components.
   */
  lemma ListedFormatsHaveThreeComponents(format: string)
    requires format in BIT_DEPTH_8 || format in BIT_DEPTH_16 || format in BIT_DEPTH_32
    ensures Components(format) == [R, G, B]
  {
    assert format[0] == 'C';
  }

  /** The source of the normal map for the configured encoding (415-422). */
  function NormalSource(normalMapFormat: string): (SourceMapType, string) {
    if normalMapFormat == "open_gl" then (VirtualMap, "Normal_OpenGL")
    else if normalMapFormat == "directx" then (VirtualMap, "Normal_DirectX")
    else (DocumentMap, "normal")
  }

  /** Each component is copied to itself from the given source. */
  function SubChannels(components: seq<Component>, mapType: SourceMapType, mapName: string): (subs: seq<SubChannel>)
    ensures |subs| == |components|
    ensures forall j :: 0 <= j < |subs| ==> subs[j] == SubChannel(components[j], components[j], mapType, mapName)
  {
    seq(|components|, i requires 0 <= i < |components| => SubChannel(components[i], components[i], mapType, mapName))
  }

  /** What get_channel_maps needs besides the channels. */
  datatype ResolveContext = ResolveContext(settings: ExportSettings, title: string, shader: string, forceEightBits: bool)

  /**
   * The state of the loop at 400-456. `names` lists `unique_names` in the
   * order added, parallel to `maps`, `labels` (the looked-up labels) and
   * `formats`; `srgb` is what was appended to Exporter.SRgbConvertChannels;
   * `userChannel` is the Python local `user_channel`, which keeps its value
   * from one iteration to the next; `failure` is an exception that ended the loop.
   */
  datatype Resolution = Resolution(
    maps: seq<MapDescription>,
    names: seq<string>,
    labels: seq<string>,
    formats: seq<string>,
    srgb: seq<string>,
    userChannel: Option<string>,
    failure: Option<Error>
  )

  const NO_MAPS := Resolution([], [], [], [], [], None, None)

  /** Whether the loop splits `key` (`label.find("#") > 0`). */
  predicate SplitsKey(key: string) { Find(key, '#') > 0 }

  /** The label a key is looked up by and the user_channel it leaves in place. */
  function KeyLabel(key: string, userChannel: Option<string>): (Option<string>, string) {
    if SplitsKey(key) && |Split(key, '#')| == 2 then (Some(Split(key, '#')[0]), Split(key, '#')[1])
    else (userChannel, key)
  }

  /** One iteration of the loop for the texture set's channel `ch` filed under `key`. */
  function ResolveStep(st: Resolution, key: string, ch: Channel, ctx: ResolveContext): Resolution {
    if st.failure.Some? then st
    else if SplitsKey(key) && |Split(key, '#')| != 2 then st.(failure := Some(LabelUnpack(key)))
    else
      var (user, lookup) := KeyLabel(key, st.userChannel);
      var st1 := st.(userChannel := user);
      var lower := Lower(lookup);
      if lower !in ctx.settings.channelMaps then st1
      else
        var name := ctx.settings.channelMaps[lower];
        if name == "" || name in st.names then st1
        else if lower != "normal" && ch.userLabel != "" && user.None? then
          st1.(failure := Some(UnboundUserChannel(key)))
        else
          var (mapType, mapName) :=
            if lower == "normal" then NormalSource(ctx.settings.normalMapFormat)
            else if ch.userLabel != "" then (DocumentMap, user.value)
            else (DocumentMap, lower);
          var desc := MapDescription(
            ExportName(ctx.settings, ctx.title, ctx.shader, name),
            SubChannels(Components(ch.format), mapType, mapName),
            MapParameters(None, BitDepth(ch.format, ctx.forceEightBits)));
          st1.(maps := st.maps + [desc], names := st.names + [name], labels := st.labels + [lower],
               formats := st.formats + [ch.format],
               srgb := if ch.format == SRGB8 then st.srgb + [name] else st.srgb)
  }

  /** The loop run over the first |keys| keys of the channel table. */
  function Resolve(keys: seq<string>, table: map<string, Channel>, ctx: ResolveContext): Resolution
    requires forall k :: k in keys ==> k in table
  {
    if |keys| == 0 then NO_MAPS
    else
      var k := keys[|keys| - 1];
      ResolveStep(Resolve(keys[..|keys| - 1], table, ctx), k, table[k], ctx)
  }

  // ---------------------------------------------------------------------
  // What every resolution satisfies

  /** The names, in order, of the emitted maps whose format is sRGB8. */
  function SRgbNames(names: seq<string>, formats: seq<string>): seq<string>
    requires |names| == |formats|
  {
    if |names| == 0 then []
    else
      SRgbNames(names[..|names| - 1], formats[..|formats| - 1])
        + (if formats[|formats| - 1] == SRGB8 then [names[|names| - 1]] else [])
  }

  /** The facts every loop state keeps. */
  ghost predicate Consistent(st: Resolution, ctx: ResolveContext) {
    && |st.maps| == |st.names| == |st.labels| == |st.formats|
    && Distinct(st.names)
    && st.srgb == SRgbNames(st.names, st.formats)
    && forall i :: 0 <= i < |st.maps| ==> MapFacts(st.maps[i], st.names[i], st.labels[i], st.formats[i], ctx)
  }

  /**
   * One emitted map: its name is configured for its label and not empty;
   * its file name is the export name of that name; its parameters hold the
   * classified bit depth; each sub-channel copies a component to itself, one
   * per component of the format; the normal map reads the encoding's source.
   */
  ghost predicate MapFacts(m: MapDescription, name: string, lookup: string, format: string, ctx: ResolveContext) {
    && lookup in ctx.settings.channelMaps && ctx.settings.channelMaps[lookup] == name && name != ""
    && m.fileName == ExportName(ctx.settings, ctx.title, ctx.shader, name)
    && m.parameters == MapParameters(None, BitDepth(format, ctx.forceEightBits))
    && |m.channels| == |Components(format)|
    && (forall j :: 0 <= j < |m.channels| ==>
         m.channels[j].destChannel == m.channels[j].srcChannel == Components(format)[j])
    && (lookup == "normal" ==> forall j :: 0 <= j < |m.channels| ==>
         (m.channels[j].srcMapType, m.channels[j].srcMapName) == NormalSource(ctx.settings.normalMapFormat))
  }

  lemma SRgbNamesSnoc(names: seq<string>, formats: seq<string>, name: string, format: string)
    requires |names| == |formats|
    ensures SRgbNames(names + [name], formats + [format])
      == SRgbNames(names, formats) + (if format == SRGB8 then [name] else [])
  {
    assert (names + [name])[..|names|] == names;
    assert (formats + [format])[..|formats|] == formats;
  }

  /** Emitting one more map whose name is new keeps a consistent state consistent. */
  lemma EmitConsistent(st: Resolution, desc: MapDescription, name: string, lookup: string, format: string, ctx: ResolveContext)
    requires Consistent(st, ctx) && name !in st.names
    requires MapFacts(desc, name, lookup, format, ctx)
    ensures Consistent(st.(maps := st.maps + [desc], names := st.names + [name], labels := st.labels + [lookup],
                           formats := st.formats + [format],
                           srgb := if format == SRGB8 then st.srgb + [name] else st.srgb), ctx)
  {
    var r := st.(maps := st.maps + [desc], names := st.names + [name], labels := st.labels + [lookup],
                 formats := st.formats + [format],
                 srgb := if format == SRGB8 then st.srgb + [name] else st.srgb);
    SRgbNamesSnoc(st.names, st.formats, name, format);
    forall i | 0 <= i < |r.maps|
      ensures MapFacts(r.maps[i], r.names[i], r.labels[i], r.formats[i], ctx)
    {
      if i < |st.maps| {
        assert r.maps[i] == st.maps[i] && r.names[i] == st.names[i];
        assert r.labels[i] == st.labels[i] && r.formats[i] == st.formats[i];
      }
    }
  }

  lemma StepConsistent(st: Resolution, key: string, ch: Channel, ctx: ResolveContext)
    requires Consistent(st, ctx)
    ensures Consistent(ResolveStep(st, key, ch, ctx), ctx)
  {
    if st.failure.None? && !(SplitsKey(key) && |Split(key, '#')| != 2) {
      var (user, lookup) := KeyLabel(key, st.userChannel);
      var lower := Lower(lookup);
      if lower in ctx.settings.channelMaps {
        var name := ctx.settings.channelMaps[lower];
        if name != "" && name !in st.names && !(lower != "normal" && ch.userLabel != "" && user.None?) {
          var (mapType, mapName) :=
            if lower == "normal" then NormalSource(ctx.settings.normalMapFormat)
            else if ch.userLabel != "" then (DocumentMap, user.value)
            else (DocumentMap, lower);
          var desc := MapDescription(
            ExportName(ctx.settings, ctx.title, ctx.shader, name),
            SubChannels(Components(ch.format), mapType, mapName),
            MapParameters(None, BitDepth(ch.format, ctx.forceEightBits)));
          assert MapFacts(desc, name, lower, ch.format, ctx);
          EmitConsistent(st.(userChannel := user), desc, name, lower, ch.format, ctx);
        }
      }
    }
  }

  /**
   * get_channel_maps, whatever the channels: no two emitted maps share a
   * canonical name; each map's file name, bit depth and sub-channels follow
   * from its channel; the names appended to SRgbConvertChannels are exactly
   * those of the emitted sRGB8 maps, in order.
   */
  lemma {:induction false} ResolveConsistent(keys: seq<string>, table: map<string, Channel>, ctx: ResolveContext)
    requires forall k :: k in keys ==> k in table
    ensures Consistent(Resolve(keys, table, ctx), ctx)
  {
    if |keys| > 0 {
      ResolveConsistent(keys[..|keys| - 1], table, ctx);
      StepConsistent(Resolve(keys[..|keys| - 1], table, ctx), keys[|keys| - 1], table[keys[|keys| - 1]], ctx);
    }
  }

  /** With force_8_bits every emitted map asks for bit depth "8". */
  lemma ForcedEightBits(keys: seq<string>, table: map<string, Channel>, ctx: ResolveContext)
    requires forall k :: k in keys ==> k in table
    requires ctx.forceEightBits
    ensures var r := Resolve(keys, table, ctx);
      forall i :: 0 <= i < |r.maps| ==> r.maps[i].parameters.bitDepth == Some("8")
  {
    ResolveConsistent(keys, table, ctx);
  }

  /** The configured, non-empty export name of the label a key is looked up by. */
  function ConfiguredName(key: string, ctx: ResolveContext): Option<string> {
    var lower := Lower(KeyLabel(key, None).1);
    if lower in ctx.settings.channelMaps && ctx.settings.channelMaps[lower] != "" then
      Some(ctx.settings.channelMaps[lower])
    else None
  }

  /** The configured names of the keys, first occurrences only, in key order. */
  function FirstNames(keys: seq<string>, ctx: ResolveContext): seq<string> {
    if |keys| == 0 then []
    else
      var prev := FirstNames(keys[..|keys| - 1], ctx);
      match ConfiguredName(keys[|keys| - 1], ctx)
      case None => prev
      case Some(name) => if name in prev then prev else prev + [name]
  }

  /** One step's effect on the emitted names, when it raises nothing. */
  lemma NamesStep(st: Resolution, key: string, ch: Channel, ctx: ResolveContext)
    requires ResolveStep(st, key, ch, ctx).failure.None?
    ensures st.failure.None?
    ensures ResolveStep(st, key, ch, ctx).names ==
      match ConfiguredName(key, ctx)
      case None => st.names
      case Some(name) => if name in st.names then st.names else st.names + [name]
  {
    assert KeyLabel(key, st.userChannel).1 == KeyLabel(key, None).1;
  }

  /**
   * Without an exception, the canonical names emitted are exactly the
   * configured names of the channels with the later duplicates skipped:
   * unknown labels and empty names contribute nothing.
   */
  lemma {:induction false} ResolveNames(keys: seq<string>, table: map<string, Channel>, ctx: ResolveContext)
    requires forall k :: k in keys ==> k in table
    requires Resolve(keys, table, ctx).failure.None?
    ensures Resolve(keys, table, ctx).names == FirstNames(keys, ctx)
  {
    if |keys| > 0 {
      var k := keys[|keys| - 1];
      NamesStep(Resolve(keys[..|keys| - 1], table, ctx), k, table[k], ctx);
      ResolveNames(keys[..|keys| - 1], table, ctx);
    }
  }

  /**
   * A User channel "slot#label" with a configured label (other than normal)
   * is looked up by its label and emitted with the slot as its source map.
   */
  lemma UserChannelSource(st: Resolution, slot: string, lbl: string, ch: Channel, ctx: ResolveContext)
    requires st.failure.None? && |slot| > 0 && '#' !in slot && '#' !in lbl && ch.userLabel != ""
    requires var lower := Lower(lbl);
      lower in ctx.settings.channelMaps && lower != "normal"
      && ctx.settings.channelMaps[lower] != "" && ctx.settings.channelMaps[lower] !in st.names
    ensures var r := ResolveStep(st, slot + "#" + lbl, ch, ctx);
      && r.failure.None? && |r.maps| == |st.maps| + 1
      && r.names == st.names + [ctx.settings.channelMaps[Lower(lbl)]]
      && forall j :: 0 <= j < |r.maps[|st.maps|].channels| ==>
           r.maps[|st.maps|].channels[j].srcMapType == DocumentMap
           && r.maps[|st.maps|].channels[j].srcMapName == slot
  {
    SplitOnce(slot, '#', lbl);
    assert slot + "#" + lbl == slot + ['#'] + lbl;
  }

  /**
   * Distinct canonical names give distinct file names when formatting the
   * naming template and title in use keeps the channel argument apart.
   */
  lemma DistinctFileNames(keys: seq<string>, table: map<string, Channel>, ctx: ResolveContext, i: int, j: int)
    requires forall k :: k in keys ==> k in table
    requires forall y, z ::
      (ctx.settings.format(NameTemplate(ctx.settings, ctx.shader), Title(ctx.title, ctx.shader), y)
         == ctx.settings.format(NameTemplate(ctx.settings, ctx.shader), Title(ctx.title, ctx.shader), z)) ==> y == z
    requires var r := Resolve(keys, table, ctx); 0 <= i < j < |r.maps|
    ensures var r := Resolve(keys, table, ctx); r.maps[i].fileName != r.maps[j].fileName
  {
    ResolveConsistent(keys, table, ctx);
    var r := Resolve(keys, table, ctx);
    ExportNameInjective(ctx.settings, ctx.title, ctx.shader, r.names[i], r.names[j]);
  }
}
