/**
 The static tables of the plugin: the datum registry (`available_epsgs`),
 the adjacency list of supported conversions (`transformations`), the UTM
 zone range (`available_zones`) and the grid caveat texts (`GRID_COMMENTS`),
 together with the well-formedness the catalog builder relies on.
 */
module Registry {
  import opened Optional
  import opened Text

  /** One piece of a PROJ template: literal text, or the `{zone}` replacement field. */
  datatype Piece = Lit(text: string) | ZoneField

  type Template = seq<Piece>

  const ZonePlaceholder := "{zone}"

  /** The template as written, with `{zone}` left in place. */
  function Render(t: Template): string
  {
    if t == [] then ""
    else (if t[0].Lit? then t[0].text else ZonePlaceholder) + Render(t[1..])
  }

  /**
   `t.format(zone=z)`, with `zoneText` the `str(z)` that replaces every
   `{zone}`. Literal text is copied as it stands, which is what `str.format`
   does with text that holds no brace (see `PlainTemplate`).
   */
  function Format(t: Template, zoneText: string): (r: string)
    ensures ZoneField !in t ==> r == Render(t)
    ensures ZoneField in t ==> |zoneText| <= |r| && Contains(r, zoneText)
  {
    if t == [] then ""
    else
      var rest := Format(t[1..], zoneText);
      if t[0].Lit? then
        assert ZoneField in t ==> ZoneField in t[1..];
        if ZoneField in t[1..] then ContainsAfter(t[0].text, rest, zoneText); t[0].text + rest
        else t[0].text + rest
      else
        assert zoneText[0..|zoneText|] == zoneText;
        assert OccursAt(zoneText + rest, zoneText, 0);
        zoneText + rest
  }
  /** A template that is not empty as written formats to a non-empty string for a non-empty zone text. */
  lemma {:induction false} FormatNonEmpty(t: Template, zoneText: string)
    requires Render(t) != "" && zoneText != ""
    ensures Format(t, zoneText) != ""
  {
    if t[0].Lit? && t[0].text == "" {
      assert Render(t) == Render(t[1..]);
      FormatNonEmpty(t[1..], zoneText);
    }
  }


  /** Text `str.format` copies unchanged: it holds no brace. */
  predicate BraceFree(s: string)
  {
    '{' !in s && '}' !in s
  }

  /**
   A template whose literal text holds no brace. Python's `str.format` reads
   braces anywhere in the string: in other text they name another field
   (`KeyError`), are empty or numbered positional fields (`IndexError`), are
   unbalanced (`ValueError`) or are escapes (`{{`).
   */
  predicate PlainTemplate(t: Template)
  {
    forall i :: 0 <= i < |t| && t[i].Lit? ==> BraceFree(t[i].text)
  }

  /** Formatting with the placeholder itself gives back the template as written. */
  lemma {:induction false} FormatWithPlaceholder(t: Template)
    ensures Format(t, ZonePlaceholder) == Render(t)
  {
    if t != [] {
      FormatWithPlaceholder(t[1..]);
    }
  }

  /** A registry entry: display name, whether it is UTM-zoned, PROJ template and grid file. */
  datatype Datum = Datum(name: string, utm: bool, proj: Option<Template>, grid: Option<string>)

  /** One row of the adjacency list: a source key and its target keys, in order. */
  datatype AdjEntry = AdjEntry(source: string, targets: seq<string>)

  const FirstZone := 49
  const LastZone := 56

  /** An Australian UTM zone. */
  type Zone = z: int | FirstZone <= z <= LastZone witness FirstZone

  /** `range(49, 57)`. */
  const AvailableZones: seq<Zone> := [49, 50, 51, 52, 53, 54, 55, 56]

  lemma AvailableZonesAreAllZones()
    ensures forall z: Zone :: z in AvailableZones
    ensures forall i, j :: 0 <= i < j < |AvailableZones| ==> AvailableZones[i] < AvailableZones[j]
  {
  }

  /** Everything the catalog builder reads. */
  datatype Tables = Tables(
    epsgs: map<string, Datum>,
    gridComments: map<string, string>,
    transformations: seq<AdjEntry>)

  /** A registry key the builder can use: present, numeric once stripped, with a described grid. */
  predicate DatumOk(t: Tables, key: string)
  {
    && key in t.epsgs
    && IsCode(StripVariant(key))
    && (Truthy(t.epsgs[key].grid) ==> Basename(t.epsgs[key].grid.value) in t.gridComments)
  }

  /** The PROJ template of `key`, when it has one, is formatted as `Format` says. */
  predicate Formattable(t: Tables, key: string)
    requires key in t.epsgs
  {
    t.epsgs[key].proj.Some? ==> PlainTemplate(t.epsgs[key].proj.value)
  }

  /**
   A row the builder can expand: good keys, and when the source is zoned the
   templates of the source and of every target, which get formatted with the
   zone, hold no stray brace.
   */
  predicate EntryOk(t: Tables, e: AdjEntry)
  {
    && DatumOk(t, e.source)
    && (t.epsgs[e.source].utm ==> Formattable(t, e.source))
    && forall k :: k in e.targets ==> DatumOk(t, k) && (t.epsgs[e.source].utm ==> Formattable(t, k))
  }

  /**
   A condition sufficient for building the catalog: it rules out every
   `KeyError` (unknown key, or a brace in a template naming a field other
   than `zone`), `IndexError` (an empty or numbered field such as `{}` or
   `{0}`), `ValueError` (`int()` of a non-numeric code, or an unbalanced
   brace) and `TypeError` (a grid with no caveat text) the builder could
   raise. It asks slightly more than the builder needs: a caveat for a
   target's grid even where the source's own grid wins, and a numeric code
   for a row that has no targets.
   */
  predicate WellFormed(t: Tables)
  {
    forall e :: e in t.transformations ==> EntryOk(t, e)
  }

  // ---------------------------------------------------------------------
  // The shipped tables
  // ---------------------------------------------------------------------

  const Agd66Grid := "A66_National_13_09_01.gsb"
  const Agd84Grid := "National_84_02_07_01.gsb"
  const ConformalGrid := "GDA94_GDA2020_conformal.gsb"
  const ConformalDistortionGrid := "GDA94_GDA2020_conformal_and_distortion.gsb"

  /** Grid files live under `grids/` in the plugin directory. */
  function GridPath(pluginDir: string, file: string): string
  {
    pluginDir + GridsDir + file
  }

  const GridFiles: set<string> := {Agd66Grid, Agd84Grid, ConformalGrid, ConformalDistortionGrid}

  /** The caveat text shown for each shipped grid file. */
  function GridComment(file: string): string
  {
    if file == Agd66Grid then
      "NTv2 transformation grid A66_national_13_09_01.gsb [EPSG:1803] <b>provides complete national coverage.</b><br>See Appendix A of Geocentric Datum of Australia 2020 Technical Manual for grid coverage and description."
    else if file == Agd84Grid then
      "NTv2 transformation grid National_84_02_07_01.gsb [EPSG:1804] <b>only has coverage for jurisdictions that adopted AGD84 - QLD, SA and WA.</b><br>See Appendix A of Geocentric Datum of Australia 2020 Technical Manual for grid coverage and description."
    else if file == ConformalGrid then
      "<b>WARNING! Currently only covers Tasmania.</b><br>NTv2 transformation grid GDA94_GDA2020_conformal.gsb [EPSG:????] <b>only applies a conformal transformation between the datums.</b><br>See Section 3.6.1 of Geocentric Datum of Australia 2020 Technical Manual for a description of the grid and when it is appropriate to apply."
    else
      "<b>WARNING! Currently only covers Tasmania.</b>NTv2 transformation grid GDA94_GDA2020_conformal_and_distortion.gsb [EPSG:????] <b>applies a conformal plus distrortion transformation between the datums.</b><br>See Section 3.6.1 of Geocentric Datum of Australia 2020 Technical Manual for a description of the grid and when it is appropriate to apply."
  }

  /** `GRID_COMMENTS`: grid file name to caveat text. */
  function GridComments(): map<string, string>
  {
    map file | file in GridFiles :: GridComment(file)
  }

  // The fixed pieces of the shipped PROJ templates.
  const UtmHead := "+proj=utm +zone="
  const UtmEllps := " +south +ellps="
  const UtmGrid := " +units=m +no_defs +nadgrids="
  const LongLatHead := "+proj=longlat +ellps="
  const LongLatGrid := " +no_defs +nadgrids="
  const WkText := " +wktext"
  const GridsDir := "/grids/"

  /** A zoned UTM template: `+proj=utm +zone={zone} +south +ellps=<ellps> ... +nadgrids=<grid> +wktext`. */
  function UtmTemplate(ellps: string, gridPath: string): Template
  {
    [Lit(UtmHead), ZoneField, Lit(UtmEllps + ellps + UtmGrid + gridPath + WkText)]
  }

  /** A geographic template: `+proj=longlat +ellps=<ellps> +no_defs +nadgrids=<grid> +wktext`. */
  function LongLatTemplate(ellps: string, gridPath: string): Template
  {
    [Lit(LongLatHead + ellps + LongLatGrid + gridPath + WkText)]
  }

  /**
   `available_epsgs`, its grid paths under `pluginDir`. A datum has a PROJ
   template exactly when it has a grid, every zoned template has a `{zone}`
   field, and the templates hold no stray brace when the directory holds none.
   */
  function AvailableEpsgs(pluginDir: string): map<string, Datum>
  {
    var agd66 := GridPath(pluginDir, Agd66Grid);
    var agd84 := GridPath(pluginDir, Agd84Grid);
    var conf := GridPath(pluginDir, ConformalGrid);
    var confDist := GridPath(pluginDir, ConformalDistortionGrid);
    map[
      "202" := Datum("AGD66 / AMG", true, Some(UtmTemplate("aust_SA", agd66)), Some(agd66)),
      "203" := Datum("AGD84 / AMG", true, Some(UtmTemplate("aust_SA", agd84)), Some(agd84)),
      "283" := Datum("GDA94 / MGA", true, None, None),
      "283c" := Datum("GDA94 / MGA (Conformal only)", true, Some(UtmTemplate("GRS80", conf)), Some(conf)),
      "283d" := Datum("GDA94 / MGA (Conformal and distortion)", true, Some(UtmTemplate("GRS80", confDist)), Some(confDist)),
      "78" := Datum("GDA2020 / MGA", true, None, None),
      "4202" := Datum("AGD66 Latitude and Longitude", false, Some(LongLatTemplate("aust_SA", agd66)), Some(agd66)),
      "4203" := Datum("AGD84 Latitude and Longitude", false, Some(LongLatTemplate("aust_SA", agd84)), Some(agd84)),
      "4283" := Datum("GDA94 Latitude and Longitude", false, None, None),
      "4283c" := Datum("GDA94 Latitude and Longitude (Conformal only)", false, Some(LongLatTemplate("GRS80", conf)), Some(conf)),
      "4283d" := Datum("GDA94 Latitude and Longitude (Conformal and distortion)", false, Some(LongLatTemplate("GRS80", confDist)), Some(confDist)),
      "7844" := Datum("GDA2020 Latitude and Longitude", false, None, None)
    ]
  }

  /** The supported conversions; the `283c` and `4283c` rows are disabled. */
  const Transformations: seq<AdjEntry> := [
    AdjEntry("202", ["283"]),
    AdjEntry("203", ["283"]),
    AdjEntry("283", ["202", "203"]),
    AdjEntry("283d", ["78"]),
    AdjEntry("78", ["283d"]),
    AdjEntry("4202", ["4283"]),
    AdjEntry("4203", ["4283"]),
    AdjEntry("4283", ["4202", "4203"]),
    AdjEntry("4283d", ["7844"]),
    AdjEntry("7844", ["4283d"])
  ]

  /** The keys of `available_epsgs`. */
  const ShippedKeys: set<string> := {
    "202", "203", "283", "283c", "283d", "78", "4202", "4203", "4283", "4283c", "4283d", "7844"
  }

  /** The numeric code a shipped key stands for, its variant tag dropped. */
  function BaseCode(key: string): string
  {
    if key in {"283c", "283d"} then "283"
    else if key in {"4283c", "4283d"} then "4283"
    else key
  }

  /** A string none of whose characters is a brace; checking character by character is cheaper for literals. */
  lemma NoBraceChars(s: string)
    requires forall i :: 0 <= i < |s| ==> s[i] != '{' && s[i] != '}'
    ensures BraceFree(s)
  {
  }

  lemma UtmPiecesPlain()
    ensures BraceFree(UtmHead) && BraceFree(UtmEllps) && BraceFree(WkText)
  {
    NoBraceChars(UtmHead);
    NoBraceChars(UtmEllps);
    NoBraceChars(WkText);
  }

  lemma UtmGridPlain()
    ensures BraceFree(UtmGrid)
  {
    NoBraceChars(UtmGrid);
  }

  lemma LongLatPiecesPlain()
    ensures BraceFree(LongLatHead) && BraceFree(LongLatGrid)
  {
    NoBraceChars(LongLatHead);
    NoBraceChars(LongLatGrid);
  }

  lemma EllipsoidsPlain()
    ensures BraceFree("aust_SA") && BraceFree("GRS80") && BraceFree(GridsDir)
  {
    NoBraceChars("aust_SA");
    NoBraceChars("GRS80");
    NoBraceChars(GridsDir);
  }

  lemma Agd66GridPlain() ensures BraceFree(Agd66Grid) { NoBraceChars(Agd66Grid); }
  lemma Agd84GridPlain() ensures BraceFree(Agd84Grid) { NoBraceChars(Agd84Grid); }
  lemma ConformalGridPlain() ensures BraceFree(ConformalGrid) { NoBraceChars(ConformalGrid); }
  lemma ConformalDistortionGridPlain() ensures BraceFree(ConformalDistortionGrid) { NoBraceChars(ConformalDistortionGrid); }

  /** A shipped grid path holds a brace only where the plugin directory does. */
  lemma GridPathPlain(pluginDir: string, file: string)
    requires BraceFree(pluginDir) && BraceFree(file)
    ensures BraceFree(GridPath(pluginDir, file))
  {
    EllipsoidsPlain();
  }

  /** `available_epsgs` has exactly the twelve shipped keys. */
  lemma AvailableEpsgsKeys(pluginDir: string)
    ensures AvailableEpsgs(pluginDir).Keys == ShippedKeys
  {
  }

  /** `GRID_COMMENTS` describes exactly the four shipped grid files. */
  lemma GridCommentsKeys()
    ensures GridComments().Keys == GridFiles
  {
  }

  /** A template's literal text holds a brace only where the ellipsoid or the grid path does. */
  lemma UtmTemplatePlain(ellps: string, gridPath: string)
    requires BraceFree(ellps) && BraceFree(gridPath)
    ensures PlainTemplate(UtmTemplate(ellps, gridPath))
  {
    UtmPiecesPlain();
    UtmGridPlain();
    var tail := UtmEllps + ellps + UtmGrid + gridPath + WkText;
    assert BraceFree(tail);
  }

  lemma LongLatTemplatePlain(ellps: string, gridPath: string)
    requires BraceFree(ellps) && BraceFree(gridPath)
    ensures PlainTemplate(LongLatTemplate(ellps, gridPath))
  {
    LongLatPiecesPlain();
    UtmPiecesPlain();
    assert BraceFree(LongLatHead + ellps + LongLatGrid + gridPath + WkText);
  }

  /** Both templates of one ellipsoid and grid file are plain under a directory without braces. */
  lemma TemplatesPlain(pluginDir: string, ellps: string, file: string)
    requires BraceFree(pluginDir) && BraceFree(ellps) && BraceFree(file)
    ensures PlainTemplate(UtmTemplate(ellps, GridPath(pluginDir, file)))
    ensures PlainTemplate(LongLatTemplate(ellps, GridPath(pluginDir, file)))
  {
    GridPathPlain(pluginDir, file);
    UtmTemplatePlain(ellps, GridPath(pluginDir, file));
    LongLatTemplatePlain(ellps, GridPath(pluginDir, file));
  }

  /** Under a directory without braces, the shipped templates are all plain. */
  lemma ShippedTemplatesPlain(pluginDir: string)
    ensures BraceFree(pluginDir) ==>
      && PlainTemplate(UtmTemplate("aust_SA", GridPath(pluginDir, Agd66Grid)))
      && PlainTemplate(UtmTemplate("aust_SA", GridPath(pluginDir, Agd84Grid)))
      && PlainTemplate(UtmTemplate("GRS80", GridPath(pluginDir, ConformalGrid)))
      && PlainTemplate(UtmTemplate("GRS80", GridPath(pluginDir, ConformalDistortionGrid)))
      && PlainTemplate(LongLatTemplate("aust_SA", GridPath(pluginDir, Agd66Grid)))
      && PlainTemplate(LongLatTemplate("aust_SA", GridPath(pluginDir, Agd84Grid)))
      && PlainTemplate(LongLatTemplate("GRS80", GridPath(pluginDir, ConformalGrid)))
      && PlainTemplate(LongLatTemplate("GRS80", GridPath(pluginDir, ConformalDistortionGrid)))
  {
    if BraceFree(pluginDir) {
      EllipsoidsPlain();
      Agd66GridPlain();
      Agd84GridPlain();
      ConformalGridPlain();
      ConformalDistortionGridPlain();
      TemplatesPlain(pluginDir, "aust_SA", Agd66Grid);
      TemplatesPlain(pluginDir, "aust_SA", Agd84Grid);
      TemplatesPlain(pluginDir, "GRS80", ConformalGrid);
      TemplatesPlain(pluginDir, "GRS80", ConformalDistortionGrid);
    }
  }

  function Shipped(pluginDir: string): Tables
  {
    Tables(AvailableEpsgs(pluginDir), GridComments(), Transformations)
  }

  /** A shipped grid path has the grid's file name as its basename, and that name has a caveat text. */
  lemma ShippedGridDescribed(pluginDir: string, file: string)
    requires file in GridFiles
    ensures Basename(GridPath(pluginDir, file)) == file
    ensures Basename(GridPath(pluginDir, file)) in GridComments()
  {
    GridFileNoSlash(file);
    BasenameOfGridPath(pluginDir, file);
  }

  /** Shipped grid names are plain file names. */
  lemma GridFileNoSlash(file: string)
    requires file in GridFiles
    ensures '/' !in file
  {
  }

  /** A purely numeric key is left alone by the stripping. */
  lemma NumericKeyIsCode(key: string)
    requires IsCode(key)
    ensures StripVariant(key) == key
  {
    assert 'c' !in key && 'd' !in key by {
      forall i | 0 <= i < |key| ensures key[i] != 'c' && key[i] != 'd' {
        assert IsDigit(key[i]);
      }
    }
    StripVariantUntagged(key);
  }

  /** The shipped keys that carry no variant tag. */
  const PlainKeys: set<string> := {"202", "203", "283", "78", "4202", "4203", "4283", "7844"}

  lemma PlainKeysAreCodes(key: string)
    requires key in PlainKeys
    ensures IsCode(key)
  {
  }

  /** The numeric part of every shipped registry key. */
  lemma ShippedCode(key: string)
    requires key in ShippedKeys
    ensures IsCode(StripVariant(key))
    ensures StripVariant(key) == BaseCode(key)
  {
    if key in PlainKeys {
      PlainKeysAreCodes(key);
      NumericKeyIsCode(key);
    } else {
      var base := BaseCode(key);
      assert base in PlainKeys;
      assert key == base + [key[|key| - 1]];
      PlainKeysAreCodes(base);
      NumericKeyIsCode(base);
      VariantKeysCollide(base, key[|key| - 1]);
    }
  }

  lemma DatumOkWithGrid(pluginDir: string, key: string, file: string)
    requires key in ShippedKeys && file in GridFiles
    requires AvailableEpsgs(pluginDir)[key].grid == Some(GridPath(pluginDir, file))
    ensures DatumOk(Shipped(pluginDir), key)
  {
    ShippedCode(key);
    ShippedGridDescribed(pluginDir, file);
  }

  lemma DatumOkWithoutGrid(pluginDir: string, key: string)
    requires key in ShippedKeys
    requires AvailableEpsgs(pluginDir)[key].grid == None && AvailableEpsgs(pluginDir)[key].proj == None
    ensures DatumOk(Shipped(pluginDir), key) && Formattable(Shipped(pluginDir), key)
  {
    ShippedCode(key);
  }

  /** A shipped key with a grid and a template: good, and formattable under a directory without braces. */
  lemma TemplateDatumOk(pluginDir: string, key: string, file: string)
    requires BraceFree(pluginDir)
    requires key in ShippedKeys && file in GridFiles
    requires AvailableEpsgs(pluginDir)[key].grid == Some(GridPath(pluginDir, file))
    requires AvailableEpsgs(pluginDir)[key].proj.Some?
    requires ShippedTemplatesPlainAt(pluginDir, AvailableEpsgs(pluginDir)[key].proj.value)
    ensures DatumOk(Shipped(pluginDir), key) && Formattable(Shipped(pluginDir), key)
  {
    DatumOkWithGrid(pluginDir, key, file);
  }

  /** `proj` is one of the eight shipped templates, each of which is plain under a directory without braces. */
  predicate ShippedTemplatesPlainAt(pluginDir: string, proj: Template)
  {
    BraceFree(pluginDir) ==> PlainTemplate(proj)
  }

  lemma Datum202Ok(pluginDir: string)
    requires BraceFree(pluginDir)
    ensures DatumOk(Shipped(pluginDir), "202") && Formattable(Shipped(pluginDir), "202")
  {
    ShippedTemplatesPlain(pluginDir);
    TemplateDatumOk(pluginDir, "202", Agd66Grid);
  }

  lemma Datum203Ok(pluginDir: string)
    requires BraceFree(pluginDir)
    ensures DatumOk(Shipped(pluginDir), "203") && Formattable(Shipped(pluginDir), "203")
  {
    ShippedTemplatesPlain(pluginDir);
    TemplateDatumOk(pluginDir, "203", Agd84Grid);
  }

  lemma Datum283dOk(pluginDir: string)
    requires BraceFree(pluginDir)
    ensures DatumOk(Shipped(pluginDir), "283d") && Formattable(Shipped(pluginDir), "283d")
  {
    ShippedTemplatesPlain(pluginDir);
    TemplateDatumOk(pluginDir, "283d", ConformalDistortionGrid);
  }

  lemma Datum4202Ok(pluginDir: string)
    requires BraceFree(pluginDir)
    ensures DatumOk(Shipped(pluginDir), "4202") && Formattable(Shipped(pluginDir), "4202")
  {
    ShippedTemplatesPlain(pluginDir);
    TemplateDatumOk(pluginDir, "4202", Agd66Grid);
  }

  lemma Datum4203Ok(pluginDir: string)
    requires BraceFree(pluginDir)
    ensures DatumOk(Shipped(pluginDir), "4203") && Formattable(Shipped(pluginDir), "4203")
  {
    ShippedTemplatesPlain(pluginDir);
    TemplateDatumOk(pluginDir, "4203", Agd84Grid);
  }

  lemma Datum4283dOk(pluginDir: string)
    requires BraceFree(pluginDir)
    ensures DatumOk(Shipped(pluginDir), "4283d") && Formattable(Shipped(pluginDir), "4283d")
  {
    ShippedTemplatesPlain(pluginDir);
    TemplateDatumOk(pluginDir, "4283d", ConformalDistortionGrid);
  }

  lemma Datum283Ok(pluginDir: string) ensures DatumOk(Shipped(pluginDir), "283") && Formattable(Shipped(pluginDir), "283") { DatumOkWithoutGrid(pluginDir, "283"); }
  lemma Datum78Ok(pluginDir: string) ensures DatumOk(Shipped(pluginDir), "78") && Formattable(Shipped(pluginDir), "78") { DatumOkWithoutGrid(pluginDir, "78"); }
  lemma Datum4283Ok(pluginDir: string) ensures DatumOk(Shipped(pluginDir), "4283") && Formattable(Shipped(pluginDir), "4283") { DatumOkWithoutGrid(pluginDir, "4283"); }
  lemma Datum7844Ok(pluginDir: string) ensures DatumOk(Shipped(pluginDir), "7844") && Formattable(Shipped(pluginDir), "7844") { DatumOkWithoutGrid(pluginDir, "7844"); }

  /** The rows of `transformations`, one by one. */
  lemma TransformationsRows()
    ensures |Transformations| == 10
    ensures Transformations[0] == AdjEntry("202", ["283"])
    ensures Transformations[1] == AdjEntry("203", ["283"])
    ensures Transformations[2] == AdjEntry("283", ["202", "203"])
    ensures Transformations[3] == AdjEntry("283d", ["78"])
    ensures Transformations[4] == AdjEntry("78", ["283d"])
    ensures Transformations[5] == AdjEntry("4202", ["4283"])
    ensures Transformations[6] == AdjEntry("4203", ["4283"])
    ensures Transformations[7] == AdjEntry("4283", ["4202", "4203"])
    ensures Transformations[8] == AdjEntry("4283d", ["7844"])
    ensures Transformations[9] == AdjEntry("7844", ["4283d"])
  {
  }
  /** Some row of `rows` goes from `src` to `tgt`. */
  predicate HasRow(rows: seq<AdjEntry>, src: string, tgt: string)
  {
    exists j :: 0 <= j < |rows| && rows[j].source == src && tgt in rows[j].targets
  }

  /** Row `i`'s target `m` has a row of its own leading back to row `i`'s source. */
  lemma TransformationReversed(i: nat, m: nat)
    requires i < |Transformations| && m < |Transformations[i].targets|
    ensures HasRow(Transformations, Transformations[i].targets[m], Transformations[i].source)
  {
    TransformationsRows();
    var j :=
      if i == 0 || i == 1 then 2
      else if i == 2 then m
      else if i == 3 then 4
      else if i == 4 then 3
      else if i == 5 || i == 6 then 7
      else if i == 7 then 5 + m
      else if i == 8 then 9
      else 8;
    assert Transformations[j].source == Transformations[i].targets[m];
    assert Transformations[i].source in Transformations[j].targets;
  }

  /** Every transform `transformations` offers can be undone: each target has a row back to its source. */
  lemma TransformationsReversible()
    ensures forall i, m :: 0 <= i < |Transformations| && 0 <= m < |Transformations[i].targets| ==>
      HasRow(Transformations, Transformations[i].targets[m], Transformations[i].source)
  {
    forall i, m | 0 <= i < |Transformations| && 0 <= m < |Transformations[i].targets|
      ensures HasRow(Transformations, Transformations[i].targets[m], Transformations[i].source)
    {
      TransformationReversed(i, m);
    }
  }


  lemma OneTargetRowOk(t: Tables, src: string, tgt: string)
    requires DatumOk(t, src) && DatumOk(t, tgt)
    requires Formattable(t, src) && Formattable(t, tgt)
    ensures EntryOk(t, AdjEntry(src, [tgt]))
  {
  }

  lemma TwoTargetRowOk(t: Tables, src: string, tgt1: string, tgt2: string)
    requires DatumOk(t, src) && DatumOk(t, tgt1) && DatumOk(t, tgt2)
    requires Formattable(t, src) && Formattable(t, tgt1) && Formattable(t, tgt2)
    ensures EntryOk(t, AdjEntry(src, [tgt1, tgt2]))
  {
  }

  /** The ten keys the shipped adjacency list names are good and formattable in `t`. */
  predicate RowKeysOk(t: Tables)
  {
    && DatumOk(t, "202") && DatumOk(t, "203") && DatumOk(t, "283") && DatumOk(t, "283d")
    && DatumOk(t, "78") && DatumOk(t, "4202") && DatumOk(t, "4203") && DatumOk(t, "4283")
    && DatumOk(t, "4283d") && DatumOk(t, "7844")
    && Formattable(t, "202") && Formattable(t, "203") && Formattable(t, "283") && Formattable(t, "283d")
    && Formattable(t, "78") && Formattable(t, "4202") && Formattable(t, "4203") && Formattable(t, "4283")
    && Formattable(t, "4283d") && Formattable(t, "7844")
  }

  /** The first five rows, the AGD66, AGD84 and GDA94/GDA2020 projected ones, are good once their keys are. */
  lemma ProjectedRowsOk(t: Tables)
    requires RowKeysOk(t)
    ensures EntryOk(t, Transformations[0]) && EntryOk(t, Transformations[1]) && EntryOk(t, Transformations[2])
    ensures EntryOk(t, Transformations[3]) && EntryOk(t, Transformations[4])
  {
    TransformationsRows();
    assert EntryOk(t, Transformations[0]) by { OneTargetRowOk(t, "202", "283"); }
    assert EntryOk(t, Transformations[1]) by { OneTargetRowOk(t, "203", "283"); }
    assert EntryOk(t, Transformations[2]) by { TwoTargetRowOk(t, "283", "202", "203"); }
    assert EntryOk(t, Transformations[3]) by { OneTargetRowOk(t, "283d", "78"); }
    assert EntryOk(t, Transformations[4]) by { OneTargetRowOk(t, "78", "283d"); }
  }

  /** The last five rows, the geographic ones, are good once their keys are. */
  lemma GeographicRowsOk(t: Tables)
    requires RowKeysOk(t)
    ensures EntryOk(t, Transformations[5]) && EntryOk(t, Transformations[6]) && EntryOk(t, Transformations[7])
    ensures EntryOk(t, Transformations[8]) && EntryOk(t, Transformations[9])
  {
    TransformationsRows();
    assert EntryOk(t, Transformations[5]) by { OneTargetRowOk(t, "4202", "4283"); }
    assert EntryOk(t, Transformations[6]) by { OneTargetRowOk(t, "4203", "4283"); }
    assert EntryOk(t, Transformations[7]) by { TwoTargetRowOk(t, "4283", "4202", "4203"); }
    assert EntryOk(t, Transformations[8]) by { OneTargetRowOk(t, "4283d", "7844"); }
    assert EntryOk(t, Transformations[9]) by { OneTargetRowOk(t, "7844", "4283d"); }
  }

  /** Ten rows that are each good make a good list. */
  lemma TenRowsOk(t: Tables, rows: seq<AdjEntry>)
    requires |rows| == 10
    requires EntryOk(t, rows[0]) && EntryOk(t, rows[1]) && EntryOk(t, rows[2]) && EntryOk(t, rows[3])
    requires EntryOk(t, rows[4]) && EntryOk(t, rows[5]) && EntryOk(t, rows[6]) && EntryOk(t, rows[7])
    requires EntryOk(t, rows[8]) && EntryOk(t, rows[9])
    ensures forall e :: e in rows ==> EntryOk(t, e)
  {
    forall e | e in rows ensures EntryOk(t, e) {
      var i :| 0 <= i < 10 && rows[i] == e;
      if i < 5 {
        assert i == 0 || i == 1 || i == 2 || i == 3 || i == 4;
      } else {
        assert i == 5 || i == 6 || i == 7 || i == 8 || i == 9;
      }
    }
  }

  /** Tables with the shipped adjacency list are well formed once the keys it names are good. */
  lemma WellFormedFromKeys(t: Tables)
    requires t.transformations == Transformations
    requires RowKeysOk(t)
    ensures WellFormed(t)
  {
    assert |Transformations| == 10 by { TransformationsRows(); }
    ProjectedRowsOk(t);
    GeographicRowsOk(t);
    TenRowsOk(t, Transformations);
  }

  /** Every key the shipped adjacency list names has a good, formattable registry entry, when the directory holds no brace. */
  lemma ShippedRowKeysOk(pluginDir: string)
    requires BraceFree(pluginDir)
    ensures RowKeysOk(Shipped(pluginDir))
  {
    Datum202Ok(pluginDir);
    Datum203Ok(pluginDir);
    Datum283dOk(pluginDir);
    Datum4202Ok(pluginDir);
    Datum4203Ok(pluginDir);
    Datum4283dOk(pluginDir);
    Datum283Ok(pluginDir);
    Datum78Ok(pluginDir);
    Datum4283Ok(pluginDir);
    Datum7844Ok(pluginDir);
  }

  /** The shipped tables meet everything the catalog builder demands, when the plugin directory holds no brace. */
  lemma ShippedWellFormed(pluginDir: string)
    requires BraceFree(pluginDir)
    ensures WellFormed(Shipped(pluginDir))
  {
    var t := Shipped(pluginDir);
    assert RowKeysOk(t) && t.transformations == Transformations by { ShippedRowKeysOk(pluginDir); }
    WellFormedFromKeys(t);
  }
}
