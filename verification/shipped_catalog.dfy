/**
 The catalog the shipped tables produce, read off at the keys the plugin's
 behaviour is usually described by.
 */
module ShippedCatalog {
  import opened Optional
  import opened Text
  import opened Registry
  import opened Catalog
  import opened CatalogTheory
  import opened CatalogFacts

  /** The unzoned key of a shipped registry key names its base code. */
  lemma UnzonedKey(key: string)
    requires key in ShippedKeys
    ensures CatalogKey(key, None) == "EPSG:" + BaseCode(key)
  {
    ShippedCode(key);
    assert CodeText(key, None) == BaseCode(key) + "";
  }

  /** The key of a shipped registry key in a zone: its base code followed by the zone. */
  lemma ZonedKey(key: string, zone: Zone)
    requires key in ShippedKeys
    ensures CatalogKey(key, Some(zone)) == "EPSG:" + BaseCode(key) + DecimalString(zone)
  {
    ShippedCode(key);
  }

  /** A row of the shipped adjacency list whose unzoned key differs from `k` at index `i`. */
  lemma RowNotUnder(t: Tables, e: AdjEntry, k: string, i: nat)
    requires EntryOk(t, e) && e.source in ShippedKeys
    requires i < |"EPSG:" + BaseCode(e.source)|
    requires i >= |k| || k[i] != ("EPSG:" + BaseCode(e.source))[i]
    ensures EntryContribution(t, e, k) == []
  {
    UnzonedKey(e.source);
    EntryContributionOther(t, e, k, i);
  }

  lemma RowsOk(t: Tables, i: nat)
    requires t.transformations == Transformations && WellFormed(t)
    requires i < |Transformations|
    ensures EntryOk(t, Transformations[i])
  {
    assert Transformations[i] in t.transformations;
  }

  /** The zoned rows other than `202 -> 283` file nothing under `EPSG:20249`. */
  lemma ZonedRowsNotUnder20249(t: Tables)
    requires t.transformations == Transformations && WellFormed(t)
    ensures forall i :: 1 <= i < 5 ==> EntryContribution(t, Transformations[i], "EPSG:20249") == []
  {
    var k := "EPSG:20249";
    TransformationsRows();
    forall i | 1 <= i < 5 ensures EntryContribution(t, Transformations[i], k) == [] {
      RowsOk(t, i);
      if i == 1 { RowNotUnder(t, Transformations[i], k, 7); }
      else { RowNotUnder(t, Transformations[i], k, 6 - i / 4); }
    }
  }

  /** No unzoned row files anything under a key that does not start `EPSG:4` or `EPSG:7`. */
  lemma UnzonedRowsNotUnder(t: Tables, k: string)
    requires t.transformations == Transformations && WellFormed(t)
    requires |k| > 5 && k[5] != '4' && k[5] != '7'
    ensures forall i :: 5 <= i < |Transformations| ==> EntryContribution(t, Transformations[i], k) == []
  {
    TransformationsRows();
    forall i | 5 <= i < |Transformations| ensures EntryContribution(t, Transformations[i], k) == [] {
      RowsOk(t, i);
      RowNotUnder(t, Transformations[i], k, 5);
    }
  }

  /** Of the shipped rows only `202 -> 283` files anything under `EPSG:20249`. */
  lemma Only202Under20249(t: Tables)
    requires t.transformations == Transformations && WellFormed(t)
    ensures forall i :: 0 <= i < |Transformations| && i != 0 ==> EntryContribution(t, Transformations[i], "EPSG:20249") == []
  {
    ZonedRowsNotUnder20249(t);
    UnzonedRowsNotUnder(t, "EPSG:20249");
  }

  /** The zoned rows other than `283 -> 202, 203` and `283d -> 78` file nothing under `EPSG:28349`. */
  lemma ZonedRowsNotUnder28349(t: Tables)
    requires t.transformations == Transformations && WellFormed(t)
    ensures forall i :: 0 <= i < 5 && i != 2 && i != 3 ==> EntryContribution(t, Transformations[i], "EPSG:28349") == []
  {
    RowNotUnder28349(t, 0, 6);
    RowNotUnder28349(t, 1, 6);
    RowNotUnder28349(t, 4, 5);
  }

  /** Rows 0, 1 and 4 of the shipped list differ from `EPSG:28349` at character `j` of their unzoned keys. */
  lemma RowNotUnder28349(t: Tables, i: nat, j: nat)
    requires t.transformations == Transformations && WellFormed(t)
    requires ((i == 0 || i == 1) && j == 6) || (i == 4 && j == 5)
    ensures i < |Transformations|
    ensures EntryContribution(t, Transformations[i], "EPSG:28349") == []
  {
    TransformationsRows();
    RowsOk(t, i);
    RowNotUnder(t, Transformations[i], "EPSG:28349", j);
  }

  /** Of the shipped rows only `283 -> 202, 203` and `283d -> 78` file anything under `EPSG:28349`. */
  lemma Only283Under28349(t: Tables)
    requires t.transformations == Transformations && WellFormed(t)
    ensures forall i :: 0 <= i < |Transformations| && i != 2 && i != 3 ==> EntryContribution(t, Transformations[i], "EPSG:28349") == []
  {
    ZonedRowsNotUnder28349(t);
    UnzonedRowsNotUnder(t, "EPSG:28349");
  }

  /**
   What the key lookups below use of the shipped tables: the shipped adjacency
   list, good registry entries for every key it names, and zoned `202`, `283`
   and `283d`.
   */
  predicate ShippedShape(t: Tables)
  {
    && t.transformations == Transformations
    && RowKeysOk(t)
    && t.epsgs["202"].utm && t.epsgs["283"].utm && t.epsgs["283d"].utm
  }

  /** The zoned datums the two keys below are built from. */
  lemma ShippedUtm(pluginDir: string)
    ensures Shipped(pluginDir).epsgs["202"].utm && Shipped(pluginDir).epsgs["283"].utm
    ensures Shipped(pluginDir).epsgs["283d"].utm
  {
  }

  lemma ShippedHasShape(pluginDir: string)
    requires BraceFree(pluginDir)
    ensures ShippedShape(Shipped(pluginDir))
  {
    ShippedRowKeysOk(pluginDir);
    ShippedUtm(pluginDir);
  }

  /** One zoned row files, under the key of one of its zones, that zone's transforms. */
  lemma ZonedRowUnder(t: Tables, src: string, targets: seq<string>, zone: Zone, k: string)
    requires EntryOk(t, AdjEntry(src, targets)) && t.epsgs[src].utm
    requires src in ShippedKeys
    requires k == "EPSG:" + BaseCode(src) + DecimalString(zone)
    ensures EntryContribution(t, AdjEntry(src, targets), k) == BuildList(t, src, targets, Some(zone))
  {
    ZonedKey(src, zone);
    EntryContributionAtKey(t, AdjEntry(src, targets), Some(zone));
  }

  lemma Contribution20249(t: Tables)
    requires t.transformations == Transformations && WellFormed(t)
    ensures Contribution(t, Transformations, "EPSG:20249") == EntryContribution(t, AdjEntry("202", ["283"]), "EPSG:20249")
  {
    Only202Under20249(t);
    ContributionOnly(t, Transformations, "EPSG:20249", 0);
    TransformationsRows();
  }

  lemma Contribution28349(t: Tables)
    requires t.transformations == Transformations && WellFormed(t)
    ensures Contribution(t, Transformations, "EPSG:28349")
         == EntryContribution(t, AdjEntry("283d", ["78"]), "EPSG:28349")
          + EntryContribution(t, AdjEntry("283", ["202", "203"]), "EPSG:28349")
  {
    Only283Under28349(t);
    ContributionPair(t, Transformations, "EPSG:28349", 2, 3);
    TransformationsRows();
  }

  lemma Key20249Text()
    ensures "EPSG:20249" == "EPSG:" + BaseCode("202") + DecimalString(49)
  {
    assert DecimalString(49) == "49";
  }

  lemma Key28349Text()
    ensures "EPSG:28349" == "EPSG:" + BaseCode("283") + DecimalString(49)
    ensures "EPSG:28349" == "EPSG:" + BaseCode("283d") + DecimalString(49)
  {
    assert DecimalString(49) == "49";
  }

  lemma BuildListOne(t: Tables, src: string, tgt: string, zone: Option<Zone>)
    requires DatumOk(t, src) && DatumOk(t, tgt)
    ensures BuildList(t, src, [tgt], zone) == [MakeTransform(t, src, tgt, zone)]
  {
  }

  lemma BuildListTwo(t: Tables, src: string, tgt1: string, tgt2: string, zone: Option<Zone>)
    requires DatumOk(t, src) && DatumOk(t, tgt1) && DatumOk(t, tgt2)
    ensures BuildList(t, src, [tgt1, tgt2], zone) == [MakeTransform(t, src, tgt1, zone), MakeTransform(t, src, tgt2, zone)]
  {
  }

  /** After one pass from empty, `EPSG:20249` holds exactly the one `202 -> 283` zone 49 transform. */
  lemma Key20249(t: Tables)
    requires ShippedShape(t)
    ensures WellFormed(t)
    ensures Lookup(OnePass(t), "EPSG:20249") == [MakeTransform(t, "202", "283", Some(49))]
  {
    var k := "EPSG:20249";
    var empty: Catalog := map[];
    WellFormedFromKeys(t);
    PrepareTransformsLookup(empty, t, k);
    Contribution20249(t);
    OneTargetRowOk(t, "202", "283");
    Key20249Text();
    ZonedRowUnder(t, "202", ["283"], 49, k);
    BuildListOne(t, "202", "283", Some(49));
  }

  lemma Lists28349(t: Tables)
    requires ShippedShape(t)
    ensures WellFormed(t)
    ensures Lookup(OnePass(t), "EPSG:28349")
         == BuildList(t, "283d", ["78"], Some(49)) + BuildList(t, "283", ["202", "203"], Some(49))
  {
    var k := "EPSG:28349";
    var empty: Catalog := map[];
    WellFormedFromKeys(t);
    PrepareTransformsLookup(empty, t, k);
    Contribution28349(t);
    OneTargetRowOk(t, "283d", "78");
    TwoTargetRowOk(t, "283", "202", "203");
    Key28349Text();
    ZonedRowUnder(t, "283d", ["78"], 49, k);
    ZonedRowUnder(t, "283", ["202", "203"], 49, k);
  }

  /** After one pass from empty, `EPSG:28349` holds `283d -> 78`, then `283 -> 202` and `283 -> 203`. */
  lemma Key28349(t: Tables)
    requires ShippedShape(t)
    ensures WellFormed(t)
    ensures Lookup(OnePass(t), "EPSG:28349") == [
      MakeTransform(t, "283d", "78", Some(49)),
      MakeTransform(t, "283", "202", Some(49)),
      MakeTransform(t, "283", "203", Some(49))]
  {
    Lists28349(t);
    OneRowThenTwo(t, "283d", "78", "283", "202", "203", Some(49));
  }

  /** A one-target row's list followed by a two-target row's list, transform by transform. */
  lemma OneRowThenTwo(t: Tables, src1: string, tgt: string, src2: string, tgt1: string, tgt2: string, zone: Option<Zone>)
    requires DatumOk(t, src1) && DatumOk(t, tgt) && DatumOk(t, src2) && DatumOk(t, tgt1) && DatumOk(t, tgt2)
    ensures BuildList(t, src1, [tgt], zone) + BuildList(t, src2, [tgt1, tgt2], zone)
         == [MakeTransform(t, src1, tgt, zone), MakeTransform(t, src2, tgt1, zone), MakeTransform(t, src2, tgt2, zone)]
  {
    BuildListOne(t, src1, tgt, zone);
    BuildListTwo(t, src2, tgt1, tgt2, zone);
    OneThenTwo(BuildList(t, src1, [tgt], zone), BuildList(t, src2, [tgt1, tgt2], zone));
  }

  lemma OneThenTwo<T>(a: seq<T>, b: seq<T>)
    requires |a| == 1 && |b| == 2
    ensures a + b == [a[0], b[0], b[1]]
  {
  }

  // ---------------------------------------------------------------------
  // The values stored under the two keys
  // ---------------------------------------------------------------------

  lemma Code202() ensures IsCode(StripVariant("202")) && DigitsValue(StripVariant("202")) == 202 { ShippedCode("202"); DigitsValueOfThree("202"); }
  lemma Code203() ensures IsCode(StripVariant("203")) && DigitsValue(StripVariant("203")) == 203 { ShippedCode("203"); DigitsValueOfThree("203"); }
  lemma Code283() ensures IsCode(StripVariant("283")) && DigitsValue(StripVariant("283")) == 283 { ShippedCode("283"); DigitsValueOfThree("283"); }
  lemma Code283d() ensures IsCode(StripVariant("283d")) && DigitsValue(StripVariant("283d")) == 283 { ShippedCode("283d"); DigitsValueOfThree("283"); }
  lemma Code78() ensures IsCode(StripVariant("78")) && DigitsValue(StripVariant("78")) == 78 { ShippedCode("78"); DigitsValueOfTwo("78"); }

  /**
   The variant and GDA2020 codes: `283d` in zone 55 is 28355 under the key
   `EPSG:28355`, the tag gone from both; `78` in zone 49 is 7849.
   */
  lemma VariantZonedCodes()
    ensures IsCode(StripVariant("283d")) && IsCode(StripVariant("78"))
    ensures ZonedCode("283d", Some(55)) == 28355 && ZonedCode("78", Some(49)) == 7849
    ensures CatalogKey("283d", Some(55)) == "EPSG:28355"
  {
    assert ZonedCode("283d", Some(55)) == 28355 by { Code283d(); }
    assert ZonedCode("78", Some(49)) == 7849 by { Code78(); }
    Key28355();
  }

  lemma Key28355()
    ensures CatalogKey("283d", Some(55)) == "EPSG:28355"
  {
    ZonedKey("283d", 55);
    assert DecimalString(55) == "55";
  }

  /** The caveat text of a shipped grid names the file and carries its comment. */
  lemma ShippedGridText(pluginDir: string, file: string)
    requires file in GridFiles
    ensures Basename(GridPath(pluginDir, file)) in GridComments()
    ensures GridText(Some(GridPath(pluginDir, file)), GridComments())
         == GridTextPrefix + file + "'" + "<br><br>" + GridComments()[file]
  {
    ShippedGridDescribed(pluginDir, file);
  }

  /** The AGD66 zone 49 to GDA94 transform: its codes, and the AGD66 grid the source brings. */
  lemma Transform20249(t: Tables, grid: string)
    requires DatumOk(t, "202") && DatumOk(t, "283")
    requires t.epsgs["202"].grid == Some(grid) && grid != ""
    ensures var x := MakeTransform(t, "202", "283", Some(49));
      && x.sourceCode == 20249 && x.targetCode == 28349
      && x.grid == Some(grid) && x.gridText == GridText(Some(grid), t.gridComments)
  {
    Code202();
    Code283();
  }

  /** The registry entries of AGD66 and GDA94 projected coordinates: their display names, and no GDA94 template. */
  lemma ShippedZonedNames(pluginDir: string)
    ensures AvailableEpsgs(pluginDir)["202"].name == "AGD66 / AMG"
    ensures AvailableEpsgs(pluginDir)["283"].name == "GDA94 / MGA"
    ensures AvailableEpsgs(pluginDir)["283"].proj == None
  {
  }

  /** The transform name `build_transform` makes from the AGD66 and GDA94 projected display names. */
  lemma NameAgd66Gda94(a: string, b: string)
    requires a == "AGD66 / AMG" && b == "GDA94 / MGA"
    ensures FirstWord(a) + " to " + FirstWord(b) == "AGD66 to GDA94"
  {
    assert a == "AGD66" + " / AMG" && b == "GDA94" + " / MGA";
    FirstWordOf("AGD66", " / AMG");
    FirstWordOf("GDA94", " / MGA");
  }

  /** The AGD66 zone 49 transform of tables whose AGD66 and GDA94 entries are named as shipped. */
  lemma Transform20249Named(t: Tables)
    requires DatumOk(t, "202") && DatumOk(t, "283")
    requires t.epsgs["202"].name == "AGD66 / AMG" && t.epsgs["283"].name == "GDA94 / MGA"
    requires t.epsgs["283"].proj == None
    ensures var x := MakeTransform(t, "202", "283", Some(49));
      && x.name == "AGD66 to GDA94"
      && x.targetProj == None
  {
    NameAgd66Gda94(t.epsgs["202"].name, t.epsgs["283"].name);
  }

  /** The shipped AGD66 zone 49 transform is named `AGD66 to GDA94` and has no target PROJ string. */
  lemma ShippedTransform20249(pluginDir: string)
    requires BraceFree(pluginDir)
    ensures DatumOk(Shipped(pluginDir), "202") && DatumOk(Shipped(pluginDir), "283")
    ensures var x := MakeTransform(Shipped(pluginDir), "202", "283", Some(49));
      && x.name == "AGD66 to GDA94"
      && x.targetProj == None
  {
    Datum202Ok(pluginDir);
    Datum283Ok(pluginDir);
    ShippedZonedNames(pluginDir);
    Transform20249Named(Shipped(pluginDir));
  }

  lemma ShippedGrid202(pluginDir: string)
    ensures Shipped(pluginDir).epsgs["202"].grid == Some(GridPath(pluginDir, Agd66Grid))
  {
  }

  /** `EPSG:20249` after one pass, for any tables of the shipped shape whose `202` has the grid `grid`. */
  lemma Key20249Values(t: Tables, grid: string)
    requires ShippedShape(t)
    requires t.epsgs["202"].grid == Some(grid) && grid != ""
    ensures WellFormed(t)
    ensures var ts := Lookup(OnePass(t), "EPSG:20249");
      && |ts| == 1 && ts[0].sourceCode == 20249 && ts[0].targetCode == 28349
      && ts[0].grid == Some(grid) && ts[0].gridText == GridText(Some(grid), t.gridComments)
  {
    Key20249(t);
    Transform20249(t, grid);
  }

  /**
   After one pass from empty, `EPSG:20249` holds exactly one transform,
   `AGD66 to GDA94`: to code 28349 through the grid `A66_National_13_09_01.gsb`,
   with no target PROJ string.
   */
  lemma OnePass20249(pluginDir: string)
    requires BraceFree(pluginDir)
    ensures WellFormed(Shipped(pluginDir))
    ensures var ts := Lookup(OnePass(Shipped(pluginDir)), "EPSG:20249");
      && |ts| == 1 && ts[0].sourceCode == 20249 && ts[0].targetCode == 28349
      && ts[0].grid == Some(GridPath(pluginDir, Agd66Grid))
      && Basename(ts[0].grid.value) == Agd66Grid
      && ts[0].name == "AGD66 to GDA94" && ts[0].targetProj == None
  {
    ShippedHasShape(pluginDir);
    Key20249(Shipped(pluginDir));
    ShippedTransform20249(pluginDir);
    ShippedGrid202(pluginDir);
    Key20249Values(Shipped(pluginDir), GridPath(pluginDir, Agd66Grid));
    ShippedGridDescribed(pluginDir, Agd66Grid);
  }

  /** The one transform under `EPSG:20249` carries the caveat text of the AGD66 grid. */
  lemma OnePass20249Caveat(pluginDir: string)
    requires BraceFree(pluginDir)
    ensures WellFormed(Shipped(pluginDir))
    ensures var ts := Lookup(OnePass(Shipped(pluginDir)), "EPSG:20249");
      && |ts| == 1
      && ts[0].gridText == GridTextPrefix + Agd66Grid + "'" + "<br><br>" + GridComments()[Agd66Grid]
  {
    var t := Shipped(pluginDir);
    var grid := GridPath(pluginDir, Agd66Grid);
    ShippedHasShape(pluginDir);
    ShippedGrid202(pluginDir);
    Key20249Values(t, grid);
    assert t.gridComments == GridComments();
    ShippedGridText(pluginDir, Agd66Grid);
  }

  /** The codes of the three transforms filed under `EPSG:28349`, for tables of the shipped shape. */
  lemma Key28349Codes(t: Tables)
    requires ShippedShape(t)
    ensures WellFormed(t)
    ensures var ts := Lookup(OnePass(t), "EPSG:28349");
      && |ts| == 3
      && ts[0].sourceCode == 28349 && ts[1].sourceCode == 28349 && ts[2].sourceCode == 28349
      && ts[0].targetCode == 7849 && ts[1].targetCode == 20249 && ts[2].targetCode == 20349
  {
    Key28349(t);
    assert MakeTransform(t, "283d", "78", Some(49)).sourceCode == 28349 by { Code283d(); }
    assert MakeTransform(t, "283d", "78", Some(49)).targetCode == 7849 by { Code78(); }
    assert MakeTransform(t, "283", "202", Some(49)).sourceCode == 28349 by { Code283(); }
    assert MakeTransform(t, "283", "202", Some(49)).targetCode == 20249 by { Code202(); }
    assert MakeTransform(t, "283", "203", Some(49)).sourceCode == 28349 by { Code283(); }
    assert MakeTransform(t, "283", "203", Some(49)).targetCode == 20349 by { Code203(); }
  }

  /**
   After one pass from empty, `EPSG:28349` holds three transforms from code
   28349: to 7849 (through `283d`), then to 20249 and to 20349.
   */
  lemma OnePass28349(pluginDir: string)
    requires BraceFree(pluginDir)
    ensures WellFormed(Shipped(pluginDir))
    ensures var ts := Lookup(OnePass(Shipped(pluginDir)), "EPSG:28349");
      && |ts| == 3
      && ts[0].sourceCode == 28349 && ts[1].sourceCode == 28349 && ts[2].sourceCode == 28349
      && ts[0].targetCode == 7849 && ts[1].targetCode == 20249 && ts[2].targetCode == 20349
  {
    ShippedHasShape(pluginDir);
    Key28349Codes(Shipped(pluginDir));
  }
}
