/** is_udim, Exporter.get_title and Exporter.get_export_name: how output file names are chosen. */
module Naming {
  import opened PyStr
  import opened ExportConfig

  /**
   * is_udim: `re.match(r"^[1-9]\d{3}$", name)`. Python's `$` also matches
   * just before one trailing newline.
   */
  predicate IsUdim(name: string) {
    && (|name| == 4 || (|name| == 5 && name[4] == '\n'))
    && IsNonzeroDigit(name[0]) && IsDigit(name[1]) && IsDigit(name[2]) && IsDigit(name[3])
  }

  /** A name is a tile number exactly when it is the decimal text of 1000..9999, optionally newline-terminated. */
  lemma UdimNames(name: string)
    ensures IsUdim(name) <==>
      exists n :: 1000 <= n <= 9999 && (name == Show4(n) || name == Show4(n) + "\n")
  {
    if IsUdim(name) {
      var n := Int4(name);
      Show4Int4(name[..4]);
      assert Int4(name[..4]) == n;
      assert name == Show4(n) || name == Show4(n) + "\n";
    }
    if exists n :: 1000 <= n <= 9999 && (name == Show4(n) || name == Show4(n) + "\n") {
      var n :| 1000 <= n <= 9999 && (name == Show4(n) || name == Show4(n) + "\n");
      Int4Show4(n);
      assert name[..4] == Show4(n);
    }
  }

  /**
   * Exporter.get_title: no title without a project title; a named texture
   * set appends the host placeholder "_$textureSet", a tile-numbered one
   * does not.
   */
  function Title(title: string, shader: string): (r: string)
    ensures r == "" <==> title == ""
    ensures title != "" && IsUdim(shader) ==> r == title
    ensures title != "" && !IsUdim(shader) ==> r == title + "_$textureSet"
  {
    if title == "" then ""
    else if IsUdim(shader) then title
    else title + "_$textureSet"
  }

  /** The template get_export_name formats: the legacy one for tile-numbered texture sets. */
  function NameTemplate(settings: ExportSettings, shader: string): (t: string)
    ensures IsUdim(shader) ==> t == settings.legacyName
    ensures !IsUdim(shader) ==> t == settings.exportName
  {
    if IsUdim(shader) then settings.legacyName else settings.exportName
  }

  /** Exporter.get_export_name: the template formatted with the title and the channel's export name. */
  function ExportName(settings: ExportSettings, title: string, shader: string, channelName: string): string {
    settings.format(NameTemplate(settings, shader), Title(title, shader), channelName)
  }

  /**
   * Distinct channel names give distinct file names whenever formatting the
   * template and title in use keeps the channel argument apart.
   */
  lemma ExportNameInjective(settings: ExportSettings, title: string, shader: string, a: string, b: string)
    requires forall y, z ::
      (settings.format(NameTemplate(settings, shader), Title(title, shader), y)
         == settings.format(NameTemplate(settings, shader), Title(title, shader), z)) ==> y == z
    requires a != b
    ensures ExportName(settings, title, shader, a) != ExportName(settings, title, shader, b)
  {
  }

  /**
   * The premise of ExportNameInjective is met by a template whose formatting
   * ends in the channel name, as "{0}_{1}" and the like do.
   */
  lemma AppendingTemplateKeepsChannelsApart(settings: ExportSettings, title: string, shader: string, prefix: string)
    requires forall y :: settings.format(NameTemplate(settings, shader), Title(title, shader), y) == prefix + y
    ensures forall y, z ::
      (settings.format(NameTemplate(settings, shader), Title(title, shader), y)
         == settings.format(NameTemplate(settings, shader), Title(title, shader), z)) ==> y == z
  {
    var t, x := NameTemplate(settings, shader), Title(title, shader);
    forall y, z | settings.format(t, x, y) == settings.format(t, x, z)
      ensures y == z
    {
      assert (prefix + y)[|prefix|..] == y;
      assert (prefix + z)[|prefix|..] == z;
    }
  }
}
