# Texture Exporter export specification, in Dafny

This project models the part of the Substance Painter Texture Exporter plugin
that builds the specification for one export call. It also models the string
helper `reverse_replace`.

- **Scope expressions.** An expression such as `diffuse:1001-1010,*:1002` is
  split into (channel, range) pairs and parsed into a scope map. The scope map
  is an insertion-ordered dictionary from channel to a list of `[u, v]` tile
  pairs (`Scope`, with its tokenizer in `ScopeLexer`).
- **Export list.** The scope map becomes the "exportList" entries, and the
  keys it uses are popped (`ExportList`).
- **Channel resolver.** The texture set's channels (keyed as
  `TextureSetWrapper.get_channels` files them) become the preset's map
  descriptions: canonical names, `userN#label` keys, normal-map sources, bit
  depths and the shared sRGB8 list (`Channels`).
- **Naming, configuration and size.** File names, the configuration table
  with its fallback, output sizes and workflow status (`Naming`,
  `ExportConfig`).
- **Mesh-map preset and parameter record.** The mesh-map preset (the seven
  baked maps, or the packed ambient occlusion/curvature/thickness map) and the
  parameter record `get_parameters` assembles (`TextureExporter`).
- **Conversion.** The conversion destinations derived after a successful
  export with rightmost-occurrence substitution (`Conversion`, `SurfUtils`).

The model follows the code's own form:

- The methods that update state step by step are classes and loops:
  - `Exporter.get_channel_udim_range`, `get_channel_maps`,
    `get_export_list`, `get_meshmaps`, `get_parameters`, `output_textures` and
    `preview_output_textures`;
  - `TextureSetWrapper.get_channels`;
  - the class-level `Exporter.SRgbConvertChannels`.
- Each method is proved equal to a specification function written as a fold
  over the same input. The properties the program promises are lemmas about
  those functions.
- The pure rules are functions with contracts: `is_udim`, `get_title`,
  `get_export_name`, `ExportConfig.value`, `get_size`, `Workflow.status`,
  `reverse_replace` and the convert-pair comprehension.

Python behaviour written out explicitly:

- `str.rsplit` with a negative count means no limit. An empty separator raises.
- `//` and `%` by 10 agree with Dafny's Euclidean operators.
- `$` in `re.match` also matches before one trailing newline.
- `True == 1`, and an `int` equals a `float` of the same value.
- Dictionaries iterate in insertion order. Assigning an existing key keeps
  its place.
- A loop's local variable keeps its value across iterations (`user_channel`).
- Reading an unassigned local raises `UnboundLocalError`.
- An `except` clause naming an undefined class raises `NameError` when an exception is matched against it.

Each exception the modelled code can raise is an `Error` constructor. A call
that raises returns `Err`. When the host export raises, `output_textures`
ends in `NameError`: its first `except` clause names `ProjectError`, which the
plugin never imports or defines, so matching any exception against it fails
(`TextureExporter.AfterExport`).

Where the code's behaviour departs from what its names and comments suggest,
the model follows the code:

- **Wildcard ranges are not copied.** `all_range_buffers` is re-bound to a
  fresh empty list before every range is computed. So the channels filled in
  after a `*` get `[]`, not the wildcard's tiles (`Scope.WildcardExample`:
  `normal` gets `[]`). The wildcard's tiles reach those channels only through
  the `"*"` fallback of the export list.
- **Invalid spans are dropped.** A span `start-end` with `end <= start`
  records nothing for its channel. It does not become "no restriction"
  (`Scope.InvalidSpanExample`).
- **Luminance formats get R, G and B.** The single-component test looks at
  the text `ChannelFormat.…`, which never starts with `L`. So luminance
  formats get three sub-channels, not one
  (`Channels.ListedFormatsHaveThreeComponents`).
- **Two settings are never clamped.** The padding algorithm and dilation
  distance are read as `paddingAlgorithm`/`dilationDistance`, but `Limits`
  names `padding_algorithm`. Out-of-set values therefore pass through
  (`ExportConfig.UnconstrainedSettings`).
- **8192 passes the check but fails `get_size`.** An output size of 8192 is
  legal in `Limits`, and `get_size` still raises for it
  (`ExportConfig.ConfiguredSize`).
- **The export list skips some keys.** It has entries only for scope-map keys
  that are configured channel names, and it never has one for `*`. Keys that
  are not configured stay in the scope map.

## Model

| member | source | states |
|---|---|---|
| SurfUtils.RFind | scripts/python/modules/SurF/utils.py:16 | the index found is an occurrence of the separator, and none starts to its right |
| SurfUtils.RSplit | scripts/python/modules/SurF/utils.py:16 | `str.rsplit` always yields at least one piece |
| SurfUtils.ReverseReplace | scripts/python/modules/SurF/utils.py:15-17 | fails exactly when the text to replace is empty, with the ValueError of `rsplit` |
| SurfUtils.JoinRSplit | scripts/python/modules/SurF/utils.py:16-17 | joining the pieces of `rsplit` with the separator gives back the original string, for every count |
| SurfUtils.ReverseReplaceSelf | scripts/python/modules/SurF/utils.py:15-17 | replacing a text by itself leaves the string unchanged |
| SurfUtils.ReverseReplaceUnchanged | scripts/python/modules/SurF/utils.py:15-17 | with occurrence 0, or when the text does not occur, the string comes back unchanged |
| SurfUtils.ReverseReplaceLast | scripts/python/modules/SurF/utils.py:16-17 | with occurrence 1 the rightmost occurrence is replaced: the text before it is kept and the text after it contains no further occurrence |
| SurfUtils.RSplitCount | scripts/python/modules/SurF/utils.py:16 | `rsplit` makes min(count, occurrences found from the right) splits, or all of them for a negative count |
| SurfUtils.JoinLength | scripts/python/modules/SurF/utils.py:17 | changing the join separator changes the length by (pieces - 1) times the length difference |
| SurfUtils.ReverseReplaceLength | scripts/python/modules/SurF/utils.py:15-17 | the result is \|s\| + k·(\|new\| - \|old\|) long, k = min(occurrence, occurrences from the right) |
| PyStr.Find | scripts/python/plugins/TextureExporter.py:401 | `str.find` gives -1 exactly when the character is absent, else its first index |
| PyStr.SplitOnce | scripts/python/plugins/TextureExporter.py:401-402 | a key with one `#` after a non-empty prefix splits into exactly its two parts |
| PyDict.Put | scripts/python/plugins/TextureExporter.py:556-559 | dictionary assignment updates the value; a new key goes last, an existing key keeps its place |
| PyDict.Dedup | scripts/python/plugins/TextureExporter.py:556-559 | the keys of a dictionary assigned the given keys in turn: each once, in the order of its first assignment |
| PyDict.Remove | scripts/python/plugins/TextureExporter.py:464 | `pop` removes the key and keeps the order of the others |
| ExportConfig.Value | scripts/python/plugins/TextureExporter.py:162-198 | raises for a missing key; a constrained value is kept when listed and otherwise replaced by the last listed value, so it is always legal |
| ExportConfig.UnconstrainedSettings | scripts/python/plugins/TextureExporter.py:162-224 | the camel-case padding and dilation settings are returned as stored |
| ExportConfig.GetSize | scripts/python/plugins/TextureExporter.py:487-497 | succeeds exactly for 512, 1024, 2048 and 4096, with an exponent 9..12 whose power of two is the size; raises otherwise |
| ExportConfig.ConfiguredSize | scripts/python/plugins/TextureExporter.py:487-497 | any configured output size is accepted by get_size except 8192 |
| ExportConfig.Status | scripts/python/plugins/TextureExporter.py:306-315 | 0 exactly for an open project with a valid name, 1 for an open project with a bad name, 2 when none is open |
| Naming.UdimNames | scripts/python/plugins/TextureExporter.py:143-144 | a name is a tile number exactly when it is the decimal text of 1000..9999, optionally followed by one newline |
| Naming.IsUdim | scripts/python/plugins/TextureExporter.py:143-144 | is_udim as `re.match(r"^[1-9]\d{3}$", name)`, with `$` matching before one trailing newline; characterised by Naming.UdimNames |
| Naming.Title | scripts/python/plugins/TextureExporter.py:366-372 | empty without a project title; otherwise the title, with "_$textureSet" appended unless the texture set is tile-numbered |
| Naming.NameTemplate | scripts/python/plugins/TextureExporter.py:374-379 | tile-numbered texture sets use the legacy template, others the export template |
| Naming.ExportName | scripts/python/plugins/TextureExporter.py:374-379 | get_export_name: the chosen template formatted with the title and the channel's export name; its distinctness is Naming.ExportNameInjective |
| Naming.ExportNameInjective | scripts/python/plugins/TextureExporter.py:374-379 | distinct channel names give distinct file names when formatting the template and title in use keeps the channel argument apart |
| Naming.AppendingTemplateKeepsChannelsApart | scripts/python/plugins/TextureExporter.py:374-379 | a template whose formatting ends in the channel name meets the premise of Naming.ExportNameInjective |
| ScopeLexer.Tokenize | scripts/python/plugins/TextureExporter.py:500-506 | the pairs of `re.findall` over the expression: none for an empty expression, and each well formed |
| ScopeLexer.FindAll | scripts/python/plugins/TextureExporter.py:500-506 | every pair `re.findall` yields has a channel of `*` or two or more word characters, and a range of `*`, one tile number or two |
| ScopeLexer.TokenizeSpan | scripts/python/plugins/TextureExporter.py:500-506 | `ch:1001-1003` tokenizes to the single pair (ch, 1001-1003) |
| Scope.Normalize | scripts/python/plugins/TextureExporter.py:509-510 | u lies in 0..9, 1001 + u + 10·v gives back the tile number, and v >= 0 from 1001 on |
| Scope.NormalizeInjective | scripts/python/plugins/TextureExporter.py:509-510 | distinct tile numbers normalize to distinct pairs |
| Scope.ExpandRange | scripts/python/plugins/TextureExporter.py:531-541 | a span expands to end - start + 1 pairs, the k-th being tile start + k |
| Scope.ExpandRangeAscending | scripts/python/plugins/TextureExporter.py:539-541 | the expansion is in strictly ascending tile order |
| Scope.TokenTiles | scripts/python/plugins/TextureExporter.py:531-551 | `*` gives [], a number one pair, a valid span its expansion, and a span with end <= start is rejected |
| Scope.Step | scripts/python/plugins/TextureExporter.py:513-559 | one loop iteration; the scope map stays a well-formed dictionary (its meaning is Scope.ParsePairsMeaning) |
| Scope.ParsePairs | scripts/python/plugins/TextureExporter.py:513-559 | the loop over the pairs; the scope map stays a well-formed dictionary (its meaning is Scope.ParsePairsMeaning) |
| Scope.Propagate | scripts/python/plugins/TextureExporter.py:560-563 | the propagation loop; the map stays well formed (its meaning is Scope.PropagateMeaning) |
| Scope.ParseScope | scripts/python/plugins/TextureExporter.py:499-564 | get_channel_udim_range as a function; the result is a well-formed dictionary (its meaning is Scope.ParseScopeMeaning) |
| Scope.ParsePairsMeaning | scripts/python/plugins/TextureExporter.py:513-559 | a channel has an entry exactly when it has a recorded pair, holding all its pairs' tiles concatenated; the wildcard flag is set exactly when `*` occurs |
| Scope.PropagateMeaning | scripts/python/plugins/TextureExporter.py:560-563 | propagation gives [] to each texture-set channel without an entry and leaves existing entries alone |
| Scope.ParsePairsKeys | scripts/python/plugins/TextureExporter.py:513-559 | the scope map lists its channels in the order they were first recorded |
| Scope.PropagateKeys | scripts/python/plugins/TextureExporter.py:560-563 | propagation appends the channels without an entry, in the texture set's order |
| Scope.ParseScopeMeaning | scripts/python/plugins/TextureExporter.py:504-563 | an empty or unmatched expression gives {}; unknown channels never get an entry; repeated channels accumulate; after `*` every texture-set channel has an entry; the keys come in order of first recording, then the propagated channels in texture-set order |
| Scope.WildcardExample | scripts/python/plugins/TextureExporter.py:519-563 | `*:1001,diffuse:1002` leaves diffuse its own tile and gives normal [] |
| Scope.InvalidSpanExample | scripts/python/plugins/TextureExporter.py:531-536 | a span with end <= start records nothing |
| ExportList.Entry | scripts/python/plugins/TextureExporter.py:470-482 | one filtered entry: the texture set, the channel's export name, and its uvTiles by ExportList.TilesFor |
| ExportList.Consume | scripts/python/plugins/TextureExporter.py:466-482 | the loop over the snapshot of the keys; the scope map stays well formed (its meaning is ExportList.ConsumeMeaning) |
| ExportList.ExportListOf | scripts/python/plugins/TextureExporter.py:459-485 | get_export_list as a function of the scope map; the map left stays well formed (its meaning is ExportList.ExportListMeaning and ExportList.WholeSetCases) |
| ExportList.TilesFor | scripts/python/plugins/TextureExporter.py:479-482 | a channel's own tiles win, then the wildcard's, and uvTiles is absent when both are empty |
| ExportList.Selected | scripts/python/plugins/TextureExporter.py:467-469 | the keys kept are exactly those with a ChannelMaps entry |
| ExportList.ConsumeMeaning | scripts/python/plugins/TextureExporter.py:467-482 | one entry per selected key in order, built from the tiles it held before the loop; exactly the selected keys are popped |
| ExportList.ExportListMeaning | scripts/python/plugins/TextureExporter.py:459-485 | for a non-empty scope map: one entry per configured key in map order, named by its export name, with the tile priority above; `*` and those keys are popped and the rest stay unchanged |
| ExportList.WholeSetCases | scripts/python/plugins/TextureExporter.py:459-485 | a meshmap request or an empty scope map gives the single unfiltered entry and pops nothing |
| Channels.ChannelKey | scripts/python/plugins/TextureExporter.py:826-829 | the key get_channels uses: the lower-cased type, plus "#label" for User types; split back by Channels.KeySchemeSplits |
| Channels.AddChannels | scripts/python/plugins/TextureExporter.py:812-830 | the channel table stays a well-formed dictionary |
| Channels.AddChannelsMeaning | scripts/python/plugins/TextureExporter.py:824-829 | a key is present exactly when it was before or a present channel type files under it, and holds the last such channel |
| Channels.KeySchemeSplits | scripts/python/plugins/TextureExporter.py:824-829 | a User channel's key splits back into its lower-cased type and its label; other keys are not split |
| Channels.BitDepth | scripts/python/plugins/TextureExporter.py:383-443 | "8" when forced, else "8"/"16"/"32" exactly for the formats in each list, and no bitDepth for the others |
| Channels.ListedFormatsHaveThreeComponents | scripts/python/plugins/TextureExporter.py:383-428 | every listed format, luminance included, gets R, G and B |
| Channels.Components | scripts/python/plugins/TextureExporter.py:425-428 | L alone when the format text starts with "L", otherwise R, G, B; see Channels.ListedFormatsHaveThreeComponents |
| Channels.NormalSource | scripts/python/plugins/TextureExporter.py:414-422 | the normal map reads Normal_OpenGL or Normal_DirectX from the virtual maps for those encodings, and the document map "normal" otherwise |
| Channels.SubChannels | scripts/python/plugins/TextureExporter.py:446-453 | one sub-channel per component, each with destChannel == srcChannel |
| Channels.ResolveStep | scripts/python/plugins/TextureExporter.py:401-456 | one iteration of get_channel_maps' loop; its facts are Channels.ResolveConsistent and Channels.ResolveNames |
| Channels.Resolve | scripts/python/plugins/TextureExporter.py:400-456 | the loop over the channel table's keys, stopping at the first exception; its facts are Channels.ResolveConsistent and Channels.ResolveNames |
| Channels.ResolveConsistent | scripts/python/plugins/TextureExporter.py:400-456 | no two maps share a canonical name; each map's label is configured with that name, its file name is the export name, its bit depth and sub-channels follow its format, the normal map reads the encoding's source, and the sRGB8 list is exactly the sRGB8 maps' names |
| Channels.ForcedEightBits | scripts/python/plugins/TextureExporter.py:435-436 | with force_8_bits every map has bitDepth "8" |
| Channels.ResolveNames | scripts/python/plugins/TextureExporter.py:404-431 | without an exception, the emitted names are the configured non-empty names of the labels in order, later duplicates skipped |
| Channels.UserChannelSource | scripts/python/plugins/TextureExporter.py:401-424 | a `slot#label` key is looked up by its label and its map reads the document map named by the slot |
| Channels.DistinctFileNames | scripts/python/plugins/TextureExporter.py:410-431 | the emitted file names are pairwise distinct when formatting the template and title in use keeps channel names apart |
| Conversion.DirName | scripts/python/plugins/TextureExporter.py:692 | posixpath.dirname: the text before the last '/', trailing slashes stripped unless it is all slashes; see Conversion.SplitPath |
| Conversion.JoinPath | scripts/python/plugins/TextureExporter.py:691-697 | posixpath.join of two parts: an absolute second part wins, otherwise one '/' is put between them when needed; see Conversion.SplitPath |
| Conversion.BaseName | scripts/python/plugins/TextureExporter.py:696 | the file name holds no '/', ends the path, and is the whole text after the last '/' |
| Conversion.SplitPath | scripts/python/plugins/TextureExporter.py:692-696 | `d/b` splits into directory d and file name b, and joining them gives the path back |
| Conversion.ReverseReplaceOnce | scripts/python/plugins/TextureExporter.py:691-697 | reverse_replace with occurrence 1 is the rightmost-occurrence substitution |
| Conversion.ReplaceRightmostPrefix | scripts/python/plugins/TextureExporter.py:691-694 | text in front of a part containing the token is left untouched |
| Conversion.ConvertDestination | scripts/python/plugins/TextureExporter.py:690-698 | fails exactly when the export directory or export format token is empty |
| Conversion.ConvertDestinationSplit | scripts/python/plugins/TextureExporter.py:688-699 | the destination of `d/b` is d with its rightmost export-directory token replaced, '/', then b with its rightmost export-format token replaced, backslashes normalized |
| Conversion.EarlierSegmentsKept | scripts/python/plugins/TextureExporter.py:688-699 | earlier segments that contain the export-directory token are carried over unchanged |
| Conversion.ConvertPairs | scripts/python/plugins/TextureExporter.py:688-699 | one pair per texture, the normalized source with its destination, and an error exactly when there are textures and a token is empty |
| TextureExporter.MeshMapPreset | scripts/python/plugins/TextureExporter.py:566-617 | get_meshmaps as a function; its content is TextureExporter.MeshMapPresetMeaning |
| TextureExporter.MeshMapPresetMeaning | scripts/python/plugins/TextureExporter.py:566-617 | seven 8-bit maps in list order, each copying R, G, B from its mesh map; or one map named with "CombinedMap" packing ambient occlusion, curvature and thickness into R, G, B |
| TextureExporter.AfterExport | scripts/python/plugins/TextureExporter.py:672-699 | any exception from the host export ends in NameError at the undefined `ProjectError` clause; only a successful export with conversion on converts |
| TextureExporter.SRgbRegistry.Append | scripts/python/plugins/TextureExporter.py:445 | appends one name to the shared list |
| TextureExporter.SRgbRegistry.Clear | scripts/python/plugins/TextureExporter.py:668 | empties the shared list |
| TextureExporter.TextureSetWrapper.GetChannels | scripts/python/plugins/TextureExporter.py:812-830 | the table becomes the old one with each present channel stored under its key, in enumeration order |
| TextureExporter.Exporter.constructor | scripts/python/plugins/TextureExporter.py:342-364 | the channel table is get_channels of the present channels, and the scope map is the parsed expression, or {} without one |
| TextureExporter.Exporter.GetChannelUdimRange | scripts/python/plugins/TextureExporter.py:499-564 | the returned scope map is ParseScope of the expression over the configured channels and the texture set's keys |
| TextureExporter.Exporter.GetChannelMaps | scripts/python/plugins/TextureExporter.py:381-457 | returns the resolver's maps, or the exception that ended it, and appends exactly the resolver's sRGB8 names to the shared list |
| TextureExporter.Exporter.ChannelMapStep | scripts/python/plugins/TextureExporter.py:401-456 | one iteration agrees with the resolver's step: same exception, emitted map, user_channel, unique names and sRGB8 names |
| TextureExporter.Exporter.DescribeChannel | scripts/python/plugins/TextureExporter.py:425-455 | the emitted description has the export file name, one sub-channel per format component and the classified bit depth |
| TextureExporter.Exporter.GetExportList | scripts/python/plugins/TextureExporter.py:459-485 | the entries and the scope map left behind are those of ExportListOf on the old scope map |
| TextureExporter.Exporter.GetMeshmaps | scripts/python/plugins/TextureExporter.py:566-617 | returns the mesh-map preset for the exporter's title |
| TextureExporter.Exporter.Parameters | scripts/python/plugins/TextureExporter.py:628-661 | get_parameters as a function of the scope map: the record or the exception, the scope map left and the sRGB8 names appended; its meaning is TextureExporter.Exporter.ParametersMeaning |
| TextureExporter.Exporter.ParametersMeaning | scripts/python/plugins/TextureExporter.py:628-661 | succeeds exactly when the needed directories can be made, the maps resolve and the size is mapped; the path is meshmap, then convert, then output; the format is the convert format exactly when converting; the list is the scope map's export list |
| TextureExporter.Exporter.GetParameters | scripts/python/plugins/TextureExporter.py:619-661 | result, remaining scope map and appended sRGB8 names are those of Parameters on the old state |
| TextureExporter.Exporter.PreviewOutputTextures | scripts/python/plugins/TextureExporter.py:708-717 | for a valid project the parameters are built without clearing the shared list first, so this export's sRGB8 names are appended to what it held; the result is the exception raised, if any |
| TextureExporter.Exporter.OutputTextures | scripts/python/plugins/TextureExporter.py:667-706 | the shared list is cleared first, so it ends holding exactly this export's sRGB8 names; an invalid project does nothing else; otherwise the result is the parameter error or what follows the host's outcome |

## Left out

- The dialog and widget code (`TextureExporterDialog`, `clean_layout`) is not part of this model. It holds no export logic.
- Host API calls are inputs. The texture set's present channel types are a list of (type name, channel). The host export's outcome is a `HostOutcome`. `spex.list_project_textures` in `preview_output_textures` is not modelled; its result is only logged, and an exception it might raise is not represented.
- `create_directory`, `os.mkdir` and `isdir` are the parameter `canCreate`.
- TextureExporter.Exporter.constructor: the two `create_directory(self.output_path)` calls are not modelled. The model does not capture that the constructor aborts when `os.mkdir` fails there and `create_directory` re-raises, nor the directory it creates; the modelled constructor always completes.
- `get_previous_directory` and the three directory getters are not modelled. The three paths are constructor inputs, and a missing project (the `None` paths) is not represented.
- Loading ExportConfig.json and the module-level settings block are not modelled. The settings are one `ExportSettings` record. A missing setting there prints and leaves names undefined, which is not modelled.
- The project-name regex (`ProjectNameMatcher`) and `Workflow.__init__` are not modelled. Its outcome is the inputs `title` and `valid`.
- SurfUtils.ReverseReplace: the plugin imports `reverse_replace` from `CxLd.utils`. `CxLd/utils.py` is not part of this model; the model assumes the definition in `scripts/python/modules/SurF/utils.py:15-17` is the one called.
- `str.format` on the naming templates is the abstract function `ExportSettings.format`.
- The `textures[(self.shader, "")]` lookup is not modelled. The written files of the texture set are given directly.
- `convert`, `multiprocess_convert`, `write_multiprocess_script` and the script templates are not modelled. They are subprocesses and file I/O; the model stops at the convert pairs.
- `output_meshmap` is not modelled. It calls `get_parameters` with one argument too many and cannot run.
- Log, warning and error messages are not modelled.
- `\w`, `\d` and `str.lower` are treated as ASCII; Python applies them to all of Unicode.
- JSON numbers are exact reals; float rounding is not modelled.
- `os.path` is modelled with posix semantics on '/'. On Windows `ntpath` also splits at '\\' and drive letters, and `join` inserts '\\'. The final `.replace("\\", "/")` is modelled.
- ScopeLexer.Tokenize: the range text is classified while matching. The re-matching of that text at 531-551 is therefore not repeated, and its unreachable "invalid range expression" branch is not modelled.
- TextureExporter.Exporter.constructor: the `shader_name` argument is not stored, because the modelled code never reads it.
