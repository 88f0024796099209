/**
 * The exporter objects: TextureSetWrapper filling its channel table, the
 * class-level Exporter.SRgbConvertChannels list, and Exporter with the
 * methods that build the export specification step by step. Each method is
 * proved against the function that specifies it in the modules it imports.
 */
module TextureExporter {
  import opened Wrappers
  import opened PyStr
  import opened PyDict
  import opened ExportConfig
  import opened Naming
  import opened ScopeLexer
  import opened Scope
  import opened Channels
  import opened ExportList
  import opened Conversion

  /** Exporter.SRgbConvertChannels: one list shared by every exporter. */
  class SRgbRegistry {
    var names: seq<string>

    constructor()
      ensures names == []
    {
      names := [];
    }

    method Append(name: string)
      modifies this
      ensures names == old(names) + [name]
    {
      names := names + [name];
    }

    method Clear()
      modifies this
      ensures names == []
    {
      names := [];
    }
  }

  /** TextureSetWrapper: its `channels` dictionary, keyed as get_channels files them. */
  class TextureSetWrapper {
    var channels: OrderedMap<Channel>

    ghost predicate WellFormed()
      reads this
    {
      Valid(channels)
    }

    constructor()
      ensures WellFormed() && channels == Empty()
    {
      channels := Empty();
    }

    /**
     * get_channels over the channel types the stack has, given in
     * enumeration order as (type name, channel) pairs: each is stored under
     * its key, overwriting what the key held.
     */
    method GetChannels(present: seq<(string, Channel)>) returns (table: OrderedMap<Channel>)
      requires WellFormed()
      modifies this
      ensures WellFormed()
      ensures channels == AddChannels(old(channels), present)
      ensures table == channels
    {
      for i := 0 to |present|
        invariant Valid(channels)
        invariant channels == AddChannels(old(channels), present[..i])
      {
        assert present[..i + 1][..i] == present[..i];
        var (name, channel) := present[i];
        if StartsWith(name, "User") {
          channels := Put(channels, Lower(name) + "#" + channel.userLabel, channel);
        } else {
          channels := Put(channels, Lower(name), channel);
        }
      }
      assert present[..|present|] == present;
      table := channels;
    }
  }

  /** The fixed mesh-map list _MeshMaps. */
  const MESH_MAPS: seq<string> := [
    "ambient_occlusion", "id", "curvature", "normal_base", "world_space_normals", "position", "thickness"
  ]

  /** One baked mesh map exported on its own, its R, G and B copied through. */
  function MeshMapDescription(settings: ExportSettings, title: string, meshmap: string): MapDescription {
    MapDescription(
      settings.format(settings.meshMapName, title, meshmap),
      SubChannels([R, G, B], MeshMap, meshmap),
      MapParameters(Some(settings.exportFormat), Some("8")))
  }

  /** The packed map: ambient occlusion, curvature and thickness into R, G and B. */
  function CombinedMeshMap(settings: ExportSettings, title: string): MapDescription {
    MapDescription(
      settings.format(settings.meshMapName, title, "CombinedMap"),
      [SubChannel(R, L, MeshMap, "ambient_occlusion"),
       SubChannel(G, L, MeshMap, "curvature"),
       SubChannel(B, L, MeshMap, "thickness")],
      MapParameters(Some(settings.exportFormat), Some("8")))
  }

  /** get_meshmaps: the combined map alone, or every listed mesh map in order. */
  function MeshMapPreset(settings: ExportSettings, title: string, isCombined: bool): seq<MapDescription> {
    if isCombined then [CombinedMeshMap(settings, title)]
    else seq(|MESH_MAPS|, i requires 0 <= i < |MESH_MAPS| => MeshMapDescription(settings, title, MESH_MAPS[i]))
  }

  /**
   * The mesh-map preset: seven maps, one per baked map in list order, each
   * copying its R, G and B from that mesh map in 8 bits and the export
   * format; or one map filling R, G, B from the single-channel ambient
   * occlusion, curvature and thickness maps.
   */
  lemma MeshMapPresetMeaning(settings: ExportSettings, title: string, isCombined: bool)
    ensures var maps := MeshMapPreset(settings, title, isCombined);
      && (forall i :: 0 <= i < |maps| ==> maps[i].parameters == MapParameters(Some(settings.exportFormat), Some("8")))
      && (isCombined ==>
            && |maps| == 1 && maps[0].fileName == settings.format(settings.meshMapName, title, "CombinedMap")
            && |maps[0].channels| == 3
            && (forall j :: 0 <= j < 3 ==> maps[0].channels[j].srcChannel == L && maps[0].channels[j].srcMapType == MeshMap)
            && [maps[0].channels[0].destChannel, maps[0].channels[1].destChannel, maps[0].channels[2].destChannel] == [R, G, B]
            && [maps[0].channels[0].srcMapName, maps[0].channels[1].srcMapName, maps[0].channels[2].srcMapName]
               == ["ambient_occlusion", "curvature", "thickness"])
      && (!isCombined ==> |maps| == 7 && forall i :: 0 <= i < 7 ==>
            && maps[i].fileName == settings.format(settings.meshMapName, title, MESH_MAPS[i])
            && |maps[i].channels| == 3
            && forall j :: 0 <= j < 3 ==>
                 maps[i].channels[j].destChannel == maps[i].channels[j].srcChannel
                 && maps[i].channels[j].srcMapType == MeshMap && maps[i].channels[j].srcMapName == MESH_MAPS[i])
  {
    if !isCombined {
      var maps := MeshMapPreset(settings, title, isCombined);
      forall i | 0 <= i < 7
        ensures |maps[i].channels| == 3
        ensures forall j :: 0 <= j < 3 ==>
          maps[i].channels[j].destChannel == maps[i].channels[j].srcChannel
          && maps[i].channels[j].srcMapType == MeshMap && maps[i].channels[j].srcMapName == MESH_MAPS[i]
      {
        assert maps[i] == MeshMapDescription(settings, title, MESH_MAPS[i]);
      }
    }
  }

  datatype Preset = Preset(name: string, maps: seq<MapDescription>)

  /** The one element of "exportParameters". */
  datatype FileParameters = FileParameters(
    fileFormat: string, dithering: bool, sizeLog2: nat, paddingAlgorithm: Json, dilationDistance: Json)

  /** The dictionary get_parameters returns for the host's export call. */
  datatype ExportParameters = ExportParameters(
    exportPath: string,
    exportShaderParams: bool,
    defaultExportPreset: string,
    exportPresets: seq<Preset>,
    exportList: seq<ExportEntry>,
    exportParameters: seq<FileParameters>)

  /** What the host's export call came back with (`spex.ExportStatus`). */
  datatype ExportStatus = Success | Cancelled | Warning | Failed

  /** The host export either raised an exception (of any kind) or returned a status and the written files. */
  datatype HostOutcome = HostRaised | HostReturned(status: ExportStatus, textures: seq<string>)

  /**
   * What output_textures does after the host call: any exception from the
   * export reaches the `except ProjectError` clause first, and since that name
   * is never defined, matching it raises NameError. A successful export with
   * conversion on yields the convert pairs; anything else converts nothing.
   */
  function AfterExport(host: HostOutcome, withConvert: bool, settings: ExportSettings): (r: Result<Option<seq<(string, string)>>>)
    ensures host.HostRaised? ==> r == Err(UndefinedName)
    ensures host.HostReturned? && (host.status != Success || !withConvert) ==> r == Ok(None)
  {
    match host
    case HostRaised => Err(UndefinedName)
    case HostReturned(status, textures) =>
      if status == Success && withConvert then
        match ConvertPairs(textures, settings)
        case Err(e) => Err(e)
        case Ok(pairs) => Ok(Some(pairs))
      else Ok(None)
  }

  class Exporter {
    const shader: string
    const settings: ExportSettings
    /** Workflow.title: the project-name match, "" when it did not match. */
    const title: string
    /** Workflow.valid: whether the project name matched. */
    const valid: bool
    const withConvert: bool
    const forceEightBits: bool
    const isCombined: bool
    const isColorCorrect: bool
    const outputPath: string
    const convertPath: string
    const meshmapPath: string
    /** self.channel_maps: the texture set's channel table. */
    const channelMaps: OrderedMap<Channel>
    /** Exporter.SRgbConvertChannels. */
    const registry: SRgbRegistry
    var scopeMap: ScopeMap

    ghost predicate WellFormed()
      reads this
    {
      Valid(scopeMap) && Valid(channelMaps)
    }

    function ResolveCtx(): ResolveContext {
      ResolveContext(settings, title, shader, forceEightBits)
    }

    function ListCtx(): ListContext {
      ListContext(settings, title, shader)
    }

    /**
     * Exporter(...): the channel table is what get_channels files the
     * present channels under, and the scope map is the parsed `parse`
     * expression (empty without one). The three directories come from the
     * project location; their creation is not modelled here.
     */
    constructor(shader: string, parse: string, settings: ExportSettings, title: string, valid: bool,
                withConvert: bool, forceEightBits: bool, isCombined: bool, isColorCorrect: bool,
                outputPath: string, convertPath: string, meshmapPath: string,
                present: seq<(string, Channel)>, registry: SRgbRegistry)
      ensures WellFormed()
      ensures this.shader == shader && this.settings == settings && this.title == title && this.valid == valid
      ensures this.withConvert == withConvert && this.forceEightBits == forceEightBits
      ensures this.isCombined == isCombined && this.isColorCorrect == isColorCorrect
      ensures this.outputPath == outputPath && this.convertPath == convertPath && this.meshmapPath == meshmapPath
      ensures this.registry == registry
      ensures channelMaps == AddChannels(Empty(), present)
      ensures scopeMap == if parse == "" then Empty() else ParseScope(parse, settings.channelMaps.Keys, channelMaps.keys)
    {
      this.shader := shader;
      this.settings := settings;
      this.title := title;
      this.valid := valid;
      this.withConvert := withConvert;
      this.forceEightBits := forceEightBits;
      this.isCombined := isCombined;
      this.isColorCorrect := isColorCorrect;
      this.outputPath := outputPath;
      this.convertPath := convertPath;
      this.meshmapPath := meshmapPath;
      this.registry := registry;
      var wrapper := new TextureSetWrapper();
      var table := wrapper.GetChannels(present);
      channelMaps := table;
      scopeMap := Empty();
      new;
      if parse != "" {
        scopeMap := GetChannelUdimRange(parse);
      }
    }

    /**
     * get_channel_udim_range: the scope map parsed from `expression`, over
     * the configured channels and the texture set's channel keys.
     */
    method GetChannelUdimRange(expression: string) returns (rangeMaps: ScopeMap)
      requires Valid(channelMaps)
      ensures rangeMaps == ParseScope(expression, settings.channelMaps.Keys, channelMaps.keys)
    {
      rangeMaps := Empty();
      if expression == "" {
        return;
      }
      var expressions := Tokenize(expression);
      if expressions == [] {
        return;
      }
      var known := settings.channelMaps.Keys;
      var isWildcardSetup := false;
      var allRangeBuffers: seq<Tile> := [];
      for i := 0 to |expressions|
        invariant ParseState(rangeMaps, isWildcardSetup) == ParsePairs(expressions[..i], known)
        invariant allRangeBuffers == []
      {
        assert expressions[..i + 1][..i] == expressions[..i];
        var (channel, udims) := expressions[i];
        if channel == "*" {
          isWildcardSetup := true;
        } else if channel !in known {
          continue;
        }
        var udimRangeBuffers: seq<Tile> := [];
        if isWildcardSetup {
          allRangeBuffers := udimRangeBuffers;
        }
        match udims {
          case Span(start, end) =>
            if end <= start {
              continue;
            }
            udimRangeBuffers := ExpandRange(start, end);
          case Single(number) =>
            udimRangeBuffers := [Normalize(number)];
          case AllTiles =>
            udimRangeBuffers := [];
        }
        if channel in rangeMaps.values {
          rangeMaps := Put(rangeMaps, channel, rangeMaps.values[channel] + udimRangeBuffers);
        } else {
          rangeMaps := Put(rangeMaps, channel, udimRangeBuffers);
        }
      }
      assert expressions[..|expressions|] == expressions;
      if isWildcardSetup {
        ghost var parsed := rangeMaps;
        var channels := channelMaps.keys;
        for j := 0 to |channels|
          invariant rangeMaps == Propagate(parsed, channels[..j])
        {
          assert channels[..j + 1][..j] == channels[..j];
          if channels[j] !in rangeMaps.values {
            rangeMaps := Put(rangeMaps, channels[j], allRangeBuffers);
          }
        }
        assert channels[..|channels|] == channels;
      }
    }

    /**
     * get_channel_maps: the map descriptions of the resolver, or the
     * exception that ended its loop; each sRGB8 channel's name is appended
     * to the shared list as it is emitted.
     */
    method GetChannelMaps() returns (r: Result<seq<MapDescription>>)
      requires Valid(channelMaps)
      modifies registry
      ensures var res := Resolve(channelMaps.keys, channelMaps.values, ResolveCtx());
        && (r.Ok? <==> res.failure.None?)
        && (r.Ok? ==> r.value == res.maps)
        && (r.Err? ==> r.error == res.failure.value)
        && registry.names == old(registry.names) + res.srgb
    {
      var keys := channelMaps.keys;
      var table := channelMaps.values;
      var maps: seq<MapDescription> := [];
      var uniqueNames: set<string> := {};
      var userChannel: Option<string> := None;
      for i := 0 to |keys|
        invariant var st := Resolve(keys[..i], table, ResolveCtx());
          && st.failure.None? && st.maps == maps && uniqueNames == (set n | n in st.names)
          && st.userChannel == userChannel && registry.names == old(registry.names) + st.srgb
      {
        var key := keys[i];
        ghost var st := Resolve(keys[..i], table, ResolveCtx());
        var outcome;
        outcome, userChannel, uniqueNames := ChannelMapStep(key, table[key], userChannel, uniqueNames, st, old(registry.names));
        ResolveSnoc(keys, table, ResolveCtx(), i);
        match outcome {
          case Err(e) =>
            ResolveSettled(keys, table, ResolveCtx(), i + 1);
            return Err(e);
          case Ok(desc) =>
            if desc.Some? {
              maps := maps + [desc.value];
            }
        }
      }
      assert keys[..|keys|] == keys;
      r := Ok(maps);
    }

    /**
     * One iteration of get_channel_maps' loop for `channel`, filed under
     * `key`: the exception it raises, or the description it emits (None when
     * it skips the channel), with the new user_channel and unique_names.
     */
    method ChannelMapStep(key: string, channel: Channel, userChannel: Option<string>, uniqueNames: set<string>,
                          ghost st: Resolution, ghost before: seq<string>)
      returns (outcome: Result<Option<MapDescription>>, user: Option<string>, names: set<string>)
      requires st.failure.None? && st.userChannel == userChannel && uniqueNames == (set n | n in st.names)
      requires registry.names == before + st.srgb
      modifies registry
      ensures var next := ResolveStep(st, key, channel, ResolveCtx());
        && (outcome.Err? <==> next.failure.Some?)
        && (outcome.Err? ==> outcome.error == next.failure.value && next.srgb == st.srgb)
        && (outcome.Ok? ==>
              && next.maps == st.maps + (if outcome.value.Some? then [outcome.value.value] else [])
              && user == next.userChannel && names == (set n | n in next.names))
        && registry.names == before + next.srgb
    {
      user := userChannel;
      names := uniqueNames;
      var lookup := key;
      if Find(key, '#') > 0 {
        var parts := Split(key, '#');
        if |parts| != 2 {
          return Err(LabelUnpack(key)), user, names;
        }
        user := Some(parts[0]);
        lookup := parts[1];
      }
      var lower := Lower(lookup);
      if lower !in settings.channelMaps {
        return Ok(None), user, names;
      }
      var channelName := settings.channelMaps[lower];
      if channelName == "" || channelName in names {
        return Ok(None), user, names;
      }
      var srcMapType := DocumentMap;
      var srcMapName := lower;
      if lower == "normal" {
        srcMapType := VirtualMap;
        if settings.normalMapFormat == "open_gl" {
          srcMapName := "Normal_OpenGL";
        } else if settings.normalMapFormat == "directx" {
          srcMapName := "Normal_DirectX";
        } else {
          srcMapType := DocumentMap;
        }
      } else if channel.userLabel != "" {
        if user.None? {
          return Err(UnboundUserChannel(key)), user, names;
        }
        srcMapName := user.value;
      }
      names := names + {channelName};
      if channel.format == SRGB8 {
        registry.Append(channelName);
      }
      var desc := DescribeChannel(channel, channelName, srcMapType, srcMapName);
      outcome := Ok(Some(desc));
    }

    /**
     * The description get_channel_maps emits for a channel it keeps: the
     * export file name, one sub-channel per component of the channel's
     * format, and the bit depth the format is classified under.
     */
    method DescribeChannel(channel: Channel, channelName: string, srcMapType: SourceMapType, srcMapName: string)
      returns (desc: MapDescription)
      ensures desc == MapDescription(
        ExportName(settings, title, shader, channelName),
        SubChannels(Components(channel.format), srcMapType, srcMapName),
        MapParameters(None, BitDepth(channel.format, forceEightBits)))
    {
      var individuals := Components(channel.format);
      var fileName := ExportName(settings, title, shader, channelName);
      var bitDepth: Option<string> := None;
      if forceEightBits {
        bitDepth := Some("8");
      } else if channel.format in BIT_DEPTH_8 {
        bitDepth := Some("8");
      } else if channel.format in BIT_DEPTH_16 {
        bitDepth := Some("16");
      } else if channel.format in BIT_DEPTH_32 {
        bitDepth := Some("32");
      }
      var channels: seq<SubChannel> := [];
      for j := 0 to |individuals|
        invariant channels == SubChannels(individuals[..j], srcMapType, srcMapName)
      {
        channels := channels + [SubChannel(individuals[j], individuals[j], srcMapType, srcMapName)];
      }
      assert individuals[..|individuals|] == individuals;
      desc := MapDescription(fileName, channels, MapParameters(None, bitDepth));
    }

    /**
     * get_export_list(is_meshmap): the entries for the current scope map,
     * popping "*" and every key it turns into an entry.
     */
    method GetExportList(isMeshmap: bool) returns (exportList: seq<ExportEntry>)
      requires WellFormed()
      modifies this
      ensures WellFormed()
      ensures (exportList, scopeMap) == ExportListOf(old(scopeMap), isMeshmap, ListCtx())
    {
      if isMeshmap {
        return [ExportEntry(shader, None)];
      }
      exportList := [];
      if |scopeMap.keys| > 0 {
        var wildcardRange := Get(scopeMap, "*", []);
        scopeMap := Remove(scopeMap, "*");
        ghost var rest := scopeMap;
        var snapshot := scopeMap.keys;
        for i := 0 to |snapshot|
          invariant Valid(scopeMap)
          invariant (exportList, scopeMap) == Consume(rest, snapshot[..i], wildcardRange, ListCtx())
        {
          assert snapshot[..i + 1][..i] == snapshot[..i];
          var channel := snapshot[i];
          if channel !in settings.channelMaps {
            continue;
          }
          var uvTiles := Get(scopeMap, channel, []);
          scopeMap := Remove(scopeMap, channel);
          var short := settings.channelMaps[channel];
          var filter := Filter([ExportName(settings, title, shader, short)], None);
          if |uvTiles| > 0 {
            filter := filter.(uvTiles := Some(uvTiles));
          } else if |wildcardRange| > 0 {
            filter := filter.(uvTiles := Some(wildcardRange));
          }
          exportList := exportList + [ExportEntry(shader, Some(filter))];
        }
        assert snapshot[..|snapshot|] == snapshot;
      } else {
        exportList := [ExportEntry(shader, None)];
      }
    }

    /** get_meshmaps: the mesh-map preset, named with the exporter's title. */
    method GetMeshmaps() returns (maps: seq<MapDescription>)
      ensures maps == MeshMapPreset(settings, Title(title, shader), isCombined)
    {
      var t := Title(title, shader);
      maps := [];
      if isCombined {
        var channels := [
          SubChannel(R, L, MeshMap, "ambient_occlusion"),
          SubChannel(G, L, MeshMap, "curvature"),
          SubChannel(B, L, MeshMap, "thickness")];
        maps := [MapDescription(settings.format(settings.meshMapName, t, "CombinedMap"), channels,
                                MapParameters(Some(settings.exportFormat), Some("8")))];
      } else {
        for i := 0 to |MESH_MAPS|
          invariant |maps| == i
          invariant forall k :: 0 <= k < i ==> maps[k] == MeshMapDescription(settings, t, MESH_MAPS[k])
        {
          var meshmap := MESH_MAPS[i];
          var channels: seq<SubChannel> := [];
          var singles := [R, G, B];
          for j := 0 to |singles|
            invariant channels == SubChannels(singles[..j], MeshMap, meshmap)
          {
            channels := channels + [SubChannel(singles[j], singles[j], MeshMap, meshmap)];
          }
          assert singles[..|singles|] == singles;
          maps := maps + [MapDescription(settings.format(settings.meshMapName, t, meshmap), channels,
                                         MapParameters(Some(settings.exportFormat), Some("8")))];
        }
      }
    }

    /**
     * get_parameters(is_convert, is_meshmap) from the scope map `scope`:
     * the parameter record or the exception raised while building it, the
     * scope map left behind and the sRGB8 names appended on the way.
     * `canCreate(path)` says whether create_directory(path) returns.
     */
    function Parameters(isConvert: bool, isMeshmap: bool, canCreate: string -> bool, scope: ScopeMap)
      : (r: (Result<ExportParameters>, ScopeMap, seq<string>))
      requires Valid(scope) && Valid(channelMaps)
    {
      var exportPath := if isMeshmap then meshmapPath else if isConvert then convertPath else outputPath;
      var exportFormat := if isConvert then settings.convertFormat else settings.exportFormat;
      if isConvert && !canCreate(convertPath) then (Err(DirectoryFailed(convertPath)), scope, [])
      else if isMeshmap && !canCreate(meshmapPath) then (Err(DirectoryFailed(meshmapPath)), scope, [])
      else
        var res := Resolve(channelMaps.keys, channelMaps.values, ResolveCtx());
        var srgb := if isMeshmap then [] else res.srgb;
        if !isMeshmap && res.failure.Some? then (Err(res.failure.value), scope, srgb)
        else
          var maps := if isMeshmap then MeshMapPreset(settings, Title(title, shader), isCombined) else res.maps;
          var (exportList, left) := ExportListOf(scope, isMeshmap, ListCtx());
          match GetSize(settings.outputSize)
          case Err(e) => (Err(e), left, srgb)
          case Ok(size) =>
            (Ok(ExportParameters(
               exportPath, settings.exportShaderParams, settings.exportPreset,
               [Preset(settings.exportPreset, maps)], exportList,
               [FileParameters(exportFormat, settings.dithering, size, settings.paddingAlgorithm, settings.dilationDistance)])),
             left, srgb)
    }

    /**
     * get_parameters succeeds exactly when the directories it creates can
     * be made, the texture maps resolve and the output size is mapped; the
     * record then exports to the meshmap, convert or output directory in
     * that priority, in the convert format exactly when converting, at the
     * mapped size, with the export list of the scope map.
     */
    lemma ParametersMeaning(isConvert: bool, isMeshmap: bool, canCreate: string -> bool, scope: ScopeMap)
      requires Valid(scope) && Valid(channelMaps)
      ensures var (r, left, srgb) := Parameters(isConvert, isMeshmap, canCreate, scope);
        var res := Resolve(channelMaps.keys, channelMaps.values, ResolveCtx());
        && (r.Ok? <==>
              (!isConvert || canCreate(convertPath)) && (!isMeshmap || canCreate(meshmapPath))
              && (isMeshmap || res.failure.None?) && settings.outputSize.JNum?
              && settings.outputSize.n in {512.0, 1024.0, 2048.0, 4096.0})
        && (r.Ok? ==>
              && r.value.exportPath == (if isMeshmap then meshmapPath else if isConvert then convertPath else outputPath)
              && |r.value.exportParameters| == 1
              && r.value.exportParameters[0].fileFormat == (if isConvert then settings.convertFormat else settings.exportFormat)
              && Pow2(r.value.exportParameters[0].sizeLog2) as real == settings.outputSize.n
              && (r.value.exportList, left) == ExportListOf(scope, isMeshmap, ListCtx())
              && r.value.exportPresets == [Preset(settings.exportPreset,
                   if isMeshmap then MeshMapPreset(settings, Title(title, shader), isCombined) else res.maps)])
        && (isMeshmap ==> srgb == [])
        && (!isMeshmap && (!isConvert || canCreate(convertPath)) ==> srgb == res.srgb)
    {
      var r := GetSize(settings.outputSize);
    }

    /**
     * get_parameters: creates the convert and meshmap directories it needs,
     * then builds the presets, the export list (popping the scope map) and
     * the size, in that order.
     */
    method GetParameters(isConvert: bool, isMeshmap: bool, canCreate: string -> bool) returns (r: Result<ExportParameters>)
      requires WellFormed()
      modifies this, registry
      ensures WellFormed()
      ensures var (res, left, srgb) := Parameters(isConvert, isMeshmap, canCreate, old(scopeMap));
        r == res && scopeMap == left && registry.names == old(registry.names) + srgb
    {
      var exportFormat := settings.exportFormat;
      var exportPath := outputPath;
      if isConvert {
        exportFormat := settings.convertFormat;
        exportPath := convertPath;
        if !canCreate(exportPath) {
          return Err(DirectoryFailed(exportPath));
        }
      }
      var maps: seq<MapDescription>;
      if isMeshmap {
        exportPath := meshmapPath;
        if !canCreate(exportPath) {
          return Err(DirectoryFailed(exportPath));
        }
        maps := GetMeshmaps();
      } else {
        var resolved := GetChannelMaps();
        if resolved.Err? {
          return Err(resolved.error);
        }
        maps := resolved.value;
      }
      var presets := Preset(settings.exportPreset, maps);
      var exportList := GetExportList(isMeshmap);
      var size := GetSize(settings.outputSize);
      if size.Err? {
        return Err(size.error);
      }
      r := Ok(ExportParameters(
        exportPath, settings.exportShaderParams, settings.exportPreset, [presets], exportList,
        [FileParameters(exportFormat, settings.dithering, size.value, settings.paddingAlgorithm, settings.dilationDistance)]));
    }

    /**
     * output_textures: clears the shared sRGB8 list, and for a valid
     * project builds the parameters, hands them to the host and, after a
     * successful export with conversion on, derives the convert pairs.
     */
    method OutputTextures(canCreate: string -> bool, host: HostOutcome) returns (r: Result<Option<seq<(string, string)>>>)
      requires WellFormed()
      modifies this, registry
      ensures WellFormed()
      ensures !valid ==> r == Ok(None) && registry.names == [] && scopeMap == old(scopeMap)
      ensures valid ==> var (res, left, srgb) := Parameters(false, false, canCreate, old(scopeMap));
        && registry.names == srgb && scopeMap == left
        && r == (if res.Err? then Err(res.error) else AfterExport(host, withConvert, settings))
    {
      registry.Clear();
      if !valid {
        return Ok(None);
      }
      var parameters := GetParameters(false, false, canCreate);
      if parameters.Err? {
        return Err(parameters.error);
      }
      match host {
        case HostRaised =>
          r := Err(UndefinedName);
        case HostReturned(status, textures) =>
          r := Ok(None);
          if status == Success && withConvert {
            var pairs := ConvertPairs(textures, settings);
            if pairs.Err? {
              return Err(pairs.error);
            }
            r := Ok(Some(pairs.value));
          }
      }
    }

    /**
     * preview_output_textures: for a valid project it builds the parameters
     * as output_textures does, but without clearing the shared sRGB8 list
     * first, so the names accumulate on top of what it held; the host's
     * listing of the textures only logs. The result is the exception raised,
     * if any.
     */
    method PreviewOutputTextures(canCreate: string -> bool) returns (r: Option<Error>)
      requires WellFormed()
      modifies this, registry
      ensures WellFormed()
      ensures !valid ==> r == None && registry.names == old(registry.names) && scopeMap == old(scopeMap)
      ensures valid ==> var (res, left, srgb) := Parameters(false, false, canCreate, old(scopeMap));
        && registry.names == old(registry.names) + srgb && scopeMap == left
        && r == (if res.Err? then Some(res.error) else None)
    {
      if !valid {
        return None;
      }
      var parameters := GetParameters(false, false, canCreate);
      if parameters.Err? {
        return Some(parameters.error);
      }
      r := None;
    }
  }

  /** The resolver over one more key is one more step. */
  lemma ResolveSnoc(keys: seq<string>, table: map<string, Channel>, ctx: ResolveContext, i: nat)
    requires forall k :: k in keys ==> k in table
    requires i < |keys|
    ensures Resolve(keys[..i + 1], table, ctx) == ResolveStep(Resolve(keys[..i], table, ctx), keys[i], table[keys[i]], ctx)
  {
    assert keys[..i + 1][..i] == keys[..i];
  }

  /** Once the resolver has raised, the later keys change nothing. */
  lemma {:induction false} ResolveSettled(keys: seq<string>, table: map<string, Channel>, ctx: ResolveContext, n: nat)
    requires forall k :: k in keys ==> k in table
    requires 0 < n <= |keys|
    requires Resolve(keys[..n], table, ctx).failure.Some?
    ensures Resolve(keys, table, ctx) == Resolve(keys[..n], table, ctx)
    decreases |keys| - n
  {
    if n < |keys| {
      var init := keys[..|keys| - 1];
      assert init[..n] == keys[..n];
      ResolveSettled(init, table, ctx, n);
    } else {
      assert keys[..n] == keys;
    }
  }
}
