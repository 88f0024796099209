/**
 * ExportConfig: the settings loaded from ExportConfig.json, the legal-value
 * table `Limits`, `ExportConfig.value` with its fallback, `get_size`, and
 * `Workflow.status`.
 */
module ExportConfig {
  import opened Wrappers

  /**
   * A value as Python's json module loads it. JSON integers and floats are
   * both held by JNum: Python compares an int and a float by value.
   */
  datatype Json =
    | JNull
    | JBool(b: bool)
    | JNum(n: real)
    | JStr(s: string)
    | JArr(items: seq<Json>)
    | JObj(fields: map<string, Json>)

  /** Python's bool is a number: True == 1 and False == 0. */
  predicate IsNumeric(j: Json) { j.JBool? || j.JNum? }

  function NumericValue(j: Json): real
    requires IsNumeric(j)
  {
    if j.JBool? then (if j.b then 1.0 else 0.0) else j.n
  }

  /** Python `==` on a legal value of `Limits` (a number or a string) and a loaded value. */
  predicate PyEq(a: Json, b: Json) {
    if IsNumeric(a) && IsNumeric(b) then NumericValue(a) == NumericValue(b) else a == b
  }

  /** Python `v in xs`. */
  predicate Listed(v: Json, xs: seq<Json>) {
    exists i :: 0 <= i < |xs| && PyEq(xs[i], v)
  }

  /** ExportConfig.Limits: the legal values of the constrained keys, in listed order. */
  const LIMITS: map<string, seq<Json>> := map[
    "output_size" := [JNum(512.0), JNum(1024.0), JNum(2048.0), JNum(8192.0), JNum(4096.0)],
    "export_format" := [JStr("png"), JStr("tga"), JStr("jpg"), JStr("tif")],
    "normal_map" := [JStr("directx"), JStr("open_gl")],
    "export_shader_params" := [JNum(1.0), JNum(0.0)],
    "dithering" := [JNum(0.0), JNum(1.0)],
    "padding_algorithm" := [
      JStr("passthrough"), JStr("color"), JStr("transparent"), JStr("diffusion"), JStr("infinite")
    ]
  ]

  /**
   * ExportConfig.value: a missing key raises; a constrained key whose stored
   * value is not listed falls back to the last listed value.
   */
  function Value(settings: map<string, Json>, key: string): (r: Result<Json>)
    ensures key !in settings <==> r.Err?
    ensures r.Err? ==> r.error == SettingNotFound(key)
    ensures r.Ok? && key !in LIMITS ==> r.value == settings[key]
    ensures r.Ok? && key in LIMITS ==> Listed(r.value, LIMITS[key])
    ensures r.Ok? && key in LIMITS && Listed(settings[key], LIMITS[key]) ==> r.value == settings[key]
    ensures r.Ok? && key in LIMITS && !Listed(settings[key], LIMITS[key])
      ==> r.value == LIMITS[key][|LIMITS[key]| - 1]
  {
    if key !in settings then Err(SettingNotFound(key))
    else
      var v := settings[key];
      if key in LIMITS && !Listed(v, LIMITS[key]) then
        var legal := LIMITS[key];
        assert PyEq(legal[|legal| - 1], legal[|legal| - 1]);
        Ok(legal[|legal| - 1])
      else Ok(v)
  }

  /**
   * The two settings the exporter reads under camel-case names ("paddingAlgorithm",
   * "dilationDistance") are not the keys of Limits ("padding_algorithm"), so
   * their stored values pass through unchecked.
   */
  lemma UnconstrainedSettings(settings: map<string, Json>)
    requires "paddingAlgorithm" in settings && "dilationDistance" in settings
    ensures Value(settings, "paddingAlgorithm") == Ok(settings["paddingAlgorithm"])
    ensures Value(settings, "dilationDistance") == Ok(settings["dilationDistance"])
  {
  }

  function Pow2(e: nat): nat {
    if e == 0 then 1 else 2 * Pow2(e - 1)
  }

  /** get_size: the configured pixel size as a power-of-two exponent; other sizes raise. */
  function GetSize(outputSize: Json): (r: Result<nat>)
    ensures r.Ok? <==> IsNumeric(outputSize) && NumericValue(outputSize) in {512.0, 1024.0, 2048.0, 4096.0}
    ensures r.Ok? ==> 9 <= r.value <= 12 && Pow2(r.value) as real == NumericValue(outputSize)
    ensures r.Err? ==> r.error == UnmappedOutputSize
  {
    if PyEq(outputSize, JNum(4096.0)) then Ok(12)
    else if PyEq(outputSize, JNum(2048.0)) then Ok(11)
    else if PyEq(outputSize, JNum(1024.0)) then Ok(10)
    else if PyEq(outputSize, JNum(512.0)) then Ok(9)
    else Err(UnmappedOutputSize)
  }

  /**
   * Every size that survives ExportConfig.value has an exponent except 8192,
   * which Limits admits and get_size rejects.
   */
  lemma ConfiguredSize(settings: map<string, Json>)
    requires "output_size" in settings
    ensures var v := Value(settings, "output_size").value;
      IsNumeric(v) && (GetSize(v).Err? <==> NumericValue(v) == 8192.0)
  {
    var v := Value(settings, "output_size").value;
    var legal := LIMITS["output_size"];
    assert Listed(v, legal);
    var i :| 0 <= i < |legal| && PyEq(legal[i], v);
    assert IsNumeric(legal[i]);
  }

  /** Workflow.status codes. */
  const SUCCESSFUL := 0
  const NAME_IS_NOT_CORRECT := 1
  const PROJECT_NOT_OPENED := 2

  /**
   * Workflow.status: 0 for an open project with a valid name, 1 for an open
   * project whose name did not match, 2 when no project is open.
   */
  function Status(isOpen: bool, valid: bool): (code: int)
    ensures code == SUCCESSFUL <==> isOpen && valid
    ensures code == NAME_IS_NOT_CORRECT <==> isOpen && !valid
    ensures code == PROJECT_NOT_OPENED <==> !isOpen
  {
    if isOpen && valid then SUCCESSFUL
    else if isOpen then NAME_IS_NOT_CORRECT
    else PROJECT_NOT_OPENED
  }

  /**
   * The module-level settings the exporter's core reads, each already taken
   * through ExportConfig.value. `format(template, a, b)` stands for Python's
   * `template.format(a, b)`.
   */
  datatype ExportSettings = ExportSettings(
    channelMaps: map<string, string>, // "maps": lower-case channel label -> canonical export name
    exportName: string,               // "export_name" template
    legacyName: string,               // "legacy_name" template, for tile-numbered texture sets
    meshMapName: string,              // "meshmap_name" template
    exportDirectory: string,          // "export_path"
    convertDirectory: string,         // "convert_path"
    outputSize: Json,                 // "output_size"
    exportFormat: string,             // "export_format"
    convertFormat: string,            // "convert_format"
    normalMapFormat: string,          // "normal_map"
    exportPreset: string,             // "preset"
    exportShaderParams: bool,         // "export_shader_params" == 1
    dithering: bool,                  // "dithering" == 1
    dilationDistance: Json,           // "dilationDistance"
    paddingAlgorithm: Json,           // "paddingAlgorithm"
    format: (string, string, string) -> string
  )
}
