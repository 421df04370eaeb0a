/**
 The catalog builder (`build_transform` and `prepare_transforms`): the
 adjacency list is expanded, once per UTM zone for zoned datums, into a map
 from `"EPSG:<code><zone>"` to an ordered list of `Transform` records. When a
 key is produced twice the newly built list is put in front of the stored one.
 */
module Catalog {
  import opened Optional
  import opened Text
  import opened Registry

  /** The resolved, zone-instantiated unit of work (the `Transform` namedtuple). */
  datatype Transform = Transform(
    name: string,
    sourceName: string,
    targetName: string,
    sourceProj: Option<string>,
    targetProj: Option<string>,
    sourceCode: int,
    targetCode: int,
    grid: Option<string>,
    gridText: string)

  type Catalog = map<string, seq<Transform>>

  // ---------------------------------------------------------------------
  // Codes, keys and display strings
  // ---------------------------------------------------------------------

  /** `str(zone)`, or `""` when the datum is not zoned. */
  function ZoneText(zone: Option<Zone>): (r: string)
    ensures zone.None? ==> r == ""
    ensures zone.Some? ==> |r| == 2 && IsCode(r) && DigitsValue(r) == zone.value
  {
    if zone.Some? then DecimalString(zone.value) else ""
  }

  /** The code text `'{epsg}{zone}'`: the numeric part of the key followed by the zone. */
  function CodeText(key: string, zone: Option<Zone>): string
  {
    StripVariant(key) + ZoneText(zone)
  }

  /** The catalog key `'EPSG:{code}'`. */
  function CatalogKey(key: string, zone: Option<Zone>): string
  {
    "EPSG:" + CodeText(key, zone)
  }

  /** The integer a key and zone stand for: the zone takes the last two decimal places. */
  function ZonedCode(key: string, zone: Option<Zone>): (r: int)
    requires IsCode(StripVariant(key))
    ensures zone.None? ==> r == DigitsValue(StripVariant(key))
    ensures zone.Some? ==> r % 100 == zone.value && r / 100 == DigitsValue(StripVariant(key))
  {
    var base := DigitsValue(StripVariant(key));
    if zone.Some? then base * 100 + zone.value else base
  }

  /** `int(code_text)` is the zoned code. */
  lemma CodeTextValue(key: string, zone: Option<Zone>)
    requires IsCode(StripVariant(key))
    ensures IsCode(CodeText(key, zone))
    ensures DigitsValue(CodeText(key, zone)) == ZonedCode(key, zone)
  {
    var z := ZoneText(zone);
    DigitsValueAppend(StripVariant(key), z);
    if zone.None? {
      assert CodeText(key, zone) == StripVariant(key);
    } else {
      assert Pow10(2) == 100;
    }
  }

  /**
   Reads the zone back out of a key for the datum `key`: the inverse of
   `CatalogKey(key, Some(z))`.
   */
  function ZoneOfKey(key: string, catalogKey: string): (r: Option<Zone>)
  {
    var prefix := CatalogKey(key, None);
    if |catalogKey| == |prefix| + 2 && catalogKey[..|prefix|] == prefix then
      var digits := catalogKey[|prefix|..];
      if IsDigits(digits) && FirstZone <= DigitsValue(digits) <= LastZone
         && DecimalString(DigitsValue(digits)) == digits
      then Some(DigitsValue(digits) as Zone)
      else None
    else None
  }

  lemma {:induction false} DecimalStringOfValue(s: string)
    requires IsCode(s) && |s| == 2 && s[0] != '0'
    ensures DecimalString(DigitsValue(s)) == s
  {
    var v := DigitsValue(s);
    assert s[..1] == [s[0]];
    assert DigitsValue(s[..1]) == DigitValue(s[0]);
    assert v == DigitValue(s[0]) * 10 + DigitValue(s[1]);
    assert DecimalString(v) == DecimalString(v / 10) + [DigitChar(v % 10)];
    assert v / 10 == DigitValue(s[0]) && v % 10 == DigitValue(s[1]);
    assert DecimalString(v / 10) == [DigitChar(DigitValue(s[0]))];
  }

  /** Parsing a formatted key gives its zone back, and a parsed zone re-forms the key. */
  lemma ZoneOfKeyRoundTrip(key: string, catalogKey: string, zone: Zone)
    ensures ZoneOfKey(key, CatalogKey(key, Some(zone))) == Some(zone)
    ensures ZoneOfKey(key, catalogKey) == Some(zone) ==> catalogKey == CatalogKey(key, Some(zone))
  {
    var prefix := CatalogKey(key, None);
    var k := CatalogKey(key, Some(zone));
    var z := ZoneText(Some(zone));
    assert k == prefix + z;
    assert k[..|prefix|] == prefix;
    assert k[|prefix|..] == z;
    if ZoneOfKey(key, catalogKey) == Some(zone) {
      var digits := catalogKey[|prefix|..];
      assert catalogKey == prefix + digits;
      assert DecimalString(zone) == digits;
    }
  }

  /** A key that parses to no zone is the key of no zone. */
  lemma ZoneOfKeyNone(key: string, catalogKey: string, zone: Zone)
    requires ZoneOfKey(key, catalogKey).None?
    ensures catalogKey != CatalogKey(key, Some(zone))
  {
    ZoneOfKeyRoundTrip(key, catalogKey, zone);
  }

  /** Different zones of one datum give different keys. */
  lemma CatalogKeyInjective(key: string, z1: Zone, z2: Zone)
    requires CatalogKey(key, Some(z1)) == CatalogKey(key, Some(z2))
    ensures z1 == z2
  {
    ZoneOfKeyRoundTrip(key, CatalogKey(key, Some(z1)), z1);
    ZoneOfKeyRoundTrip(key, CatalogKey(key, Some(z2)), z2);
  }

  /** `"{name} [EPSG:{code}]"`. */
  function Display(name: string, code: string): string
  {
    name + " [EPSG:" + code + "]"
  }

  // ---------------------------------------------------------------------
  // One transform
  // ---------------------------------------------------------------------

  /**
   The PROJ string of a datum for a zone. The template is formatted only when
   there is a zone and the template is a non-empty string; otherwise it is
   passed through as written, and `None` stays `None`.
   */
  function ProjFor(proj: Option<Template>, zone: Option<Zone>): (r: Option<string>)
    ensures r.None? <==> proj.None?
    ensures zone.None? && proj.Some? ==> r == Some(Render(proj.value))
    ensures zone.Some? && proj.Some? ==> r == Some(Format(proj.value, ZoneText(zone)))
  {
    if proj.None? then None
    else if zone.Some? && Render(proj.value) != "" then Some(Format(proj.value, ZoneText(zone)))
    else
      EmptyTemplateHasNoField(proj.value, ZoneText(zone));
      Some(Render(proj.value))
  }

  /** A template that renders as the empty string formats to it too. */
  lemma {:induction false} EmptyTemplateHasNoField(t: Template, zoneText: string)
    ensures Render(t) == "" ==> Format(t, zoneText) == ""
  {
    if t != [] {
      EmptyTemplateHasNoField(t[1..], zoneText);
    }
  }

  /**
   The grid a transform uses: never an empty name, absent only when neither
   datum has one, and always one of the two datums' grids, the source's
   whenever it has one.
   */
  function ChooseGrid(sourceGrid: Option<string>, targetGrid: Option<string>): (r: Option<string>)
    ensures r.None? <==> !Truthy(sourceGrid) && !Truthy(targetGrid)
    ensures r.Some? ==> Truthy(r) && (r == sourceGrid || r == targetGrid)
    ensures Truthy(sourceGrid) ==> r == sourceGrid
  {
    if Truthy(sourceGrid) then sourceGrid
    else if Truthy(targetGrid) then targetGrid
    else None
  }

  const GridTextPrefix := "using NTv2 grid: '"

  /** `"using NTv2 grid: '<basename>'" + "<br><br>" + GRID_COMMENTS[basename]`, or `""` without a grid. */
  function GridText(grid: Option<string>, comments: map<string, string>): (r: string)
    requires Truthy(grid) ==> Basename(grid.value) in comments
    ensures r == "" <==> !Truthy(grid)
    ensures Truthy(grid) ==> GridTextPrefix <= r
    ensures Truthy(grid) ==>
      && Contains(r, Basename(grid.value))
      && EndsWith(r, comments[Basename(grid.value)])
  {
    if Truthy(grid) then
      var file := Basename(grid.value);
      var r := GridTextPrefix + file + "'" + "<br><br>" + comments[file];
      assert OccursAt(r, file, |GridTextPrefix|);
      assert r[|r| - |comments[file]|..] == comments[file];
      r
    else ""
  }

  /** One record of `build_transform`: source datum `src` to target datum `tgt` in `zone`. */
  function MakeTransform(t: Tables, src: string, tgt: string, zone: Option<Zone>): (r: Transform)
    requires DatumOk(t, src) && DatumOk(t, tgt)
    ensures r.name == FirstWord(t.epsgs[src].name) + " to " + FirstWord(t.epsgs[tgt].name)
    ensures r.sourceCode == ZonedCode(src, zone) && r.targetCode == ZonedCode(tgt, zone)
    ensures r.sourceName == Display(t.epsgs[src].name, CodeText(src, zone))
    ensures r.targetName == Display(t.epsgs[tgt].name, CodeText(tgt, zone))
    ensures r.sourceProj.None? <==> t.epsgs[src].proj.None?
    ensures r.targetProj.None? <==> t.epsgs[tgt].proj.None?
    ensures zone.None? && t.epsgs[src].proj.Some? ==> r.sourceProj == Some(Render(t.epsgs[src].proj.value))
    ensures zone.Some? && t.epsgs[src].proj.Some? ==> r.sourceProj == Some(Format(t.epsgs[src].proj.value, ZoneText(zone)))
    ensures zone.None? && t.epsgs[tgt].proj.Some? ==> r.targetProj == Some(Render(t.epsgs[tgt].proj.value))
    ensures zone.Some? && t.epsgs[tgt].proj.Some? ==> r.targetProj == Some(Format(t.epsgs[tgt].proj.value, ZoneText(zone)))
    ensures Truthy(t.epsgs[src].grid) ==> r.grid == t.epsgs[src].grid
    ensures !Truthy(t.epsgs[src].grid) && Truthy(t.epsgs[tgt].grid) ==> r.grid == t.epsgs[tgt].grid
    ensures !Truthy(t.epsgs[src].grid) && !Truthy(t.epsgs[tgt].grid) ==> r.grid.None?
    ensures r.gridText == "" <==> r.grid.None?
  {
    var s := t.epsgs[src];
    var d := t.epsgs[tgt];
    var sourceCode := CodeText(src, zone);
    var targetCode := CodeText(tgt, zone);
    CodeTextValue(src, zone);
    CodeTextValue(tgt, zone);
    var grid := ChooseGrid(s.grid, d.grid);
    Transform(
      FirstWord(s.name) + " to " + FirstWord(d.name),
      Display(s.name, sourceCode),
      Display(d.name, targetCode),
      ProjFor(s.proj, zone),
      ProjFor(d.proj, zone),
      DigitsValue(sourceCode),
      DigitsValue(targetCode),
      grid,
      GridText(grid, t.gridComments))
  }

  /** The transforms for `targets`, one per target in target order. */
  function BuildList(t: Tables, src: string, targets: seq<string>, zone: Option<Zone>): (r: seq<Transform>)
    requires DatumOk(t, src)
    requires forall k :: k in targets ==> DatumOk(t, k)
    ensures |r| == |targets|
    ensures forall i :: 0 <= i < |targets| ==> r[i] == MakeTransform(t, src, targets[i], zone)
  {
    seq(|targets|, i requires 0 <= i < |targets| => MakeTransform(t, src, targets[i], zone))
  }

  /** `build_transform`: the catalog key for the source in `zone`, and its transforms. */
  function BuildTransform(t: Tables, e: AdjEntry, zone: Option<Zone>): (r: (string, seq<Transform>))
    requires EntryOk(t, e)
    ensures r.0 == CatalogKey(e.source, zone)
    ensures r.1 == BuildList(t, e.source, e.targets, zone)
  {
    (CatalogKey(e.source, zone), BuildList(t, e.source, e.targets, zone))
  }

  // ---------------------------------------------------------------------
  // The catalog fold
  // ---------------------------------------------------------------------

  /** `SUPPORTED_TRANSFORMS.get(key)`, with a missing key read as no transforms. */
  function Lookup<T>(c: map<string, seq<T>>, key: string): seq<T>
  {
    if key in c then c[key] else []
  }

  /** Stores `ts` under `key`, followed by whatever was stored there before. */
  function Merge<T>(c: map<string, seq<T>>, key: string, ts: seq<T>): (r: map<string, seq<T>>)
    ensures r.Keys == c.Keys + {key}
    ensures Lookup(r, key) == ts + Lookup(c, key)
    ensures forall k :: k != key ==> Lookup(r, k) == Lookup(c, k)
  {
    var existing := Lookup(c, key);
    if |existing| > 0 then c[key := ts + existing] else c[key := ts]
  }

  /** The `(key, transforms)` pairs `build_transform` returns for one row, zone loop order. */
  function ZoneBuilds(t: Tables, e: AdjEntry, n: nat): (r: seq<(string, seq<Transform>)>)
    requires EntryOk(t, e)
    requires n <= |AvailableZones|
    ensures |r| == n
    ensures forall i :: 0 <= i < n ==> r[i].0 == CatalogKey(e.source, Some(AvailableZones[i]))
    ensures forall i :: 0 <= i < n ==> r[i].1 == BuildList(t, e.source, e.targets, Some(AvailableZones[i]))
  {
    if n == 0 then []
    else ZoneBuilds(t, e, n - 1) + [BuildTransform(t, e, Some(AvailableZones[n - 1]))]
  }

  /** The pairs one adjacency row produces: one per available zone, or a single unzoned one. */
  function EntryBuilds(t: Tables, e: AdjEntry): seq<(string, seq<Transform>)>
    requires EntryOk(t, e)
  {
    if t.epsgs[e.source].utm then ZoneBuilds(t, e, |AvailableZones|)
    else [BuildTransform(t, e, None)]
  }

  /** The pairs of the rows `entries`, in the order the loops of `prepare_transforms` build them. */
  function Builds(t: Tables, entries: seq<AdjEntry>): seq<(string, seq<Transform>)>
    requires forall e :: e in entries ==> EntryOk(t, e)
  {
    if entries == [] then []
    else Builds(t, entries[..|entries| - 1]) + EntryBuilds(t, entries[|entries| - 1])
  }

  /** `s` ends with `suffix`. */
  predicate EndsWith<T(==)>(s: seq<T>, suffix: seq<T>)
  {
    |suffix| <= |s| && s[|s| - |suffix|..] == suffix
  }

  lemma EndsWithPrepend<T>(front: seq<T>, s: seq<T>, suffix: seq<T>)
    requires EndsWith(s, suffix)
    ensures EndsWith(front + s, suffix)
  {
    assert (front + s)[|front + s| - |suffix|..] == s[|s| - |suffix|..];
  }

  /** A merge keeps every key of `c` and the end of its list. */
  lemma MergeKeepsEnds<T>(c: map<string, seq<T>>, m: map<string, seq<T>>, key: string, ts: seq<T>)
    requires forall k :: k in c ==> k in m && EndsWith(m[k], c[k])
    ensures var r := Merge(m, key, ts);
      forall k :: k in c ==> k in r && EndsWith(r[k], c[k])
  {
    var r := Merge(m, key, ts);
    forall k | k in c
      ensures k in r && EndsWith(r[k], c[k])
    {
      if k == key {
        assert r[k] == ts + m[k];
        EndsWithPrepend(ts, m[k], c[k]);
      }
    }
  }

  /** The pairs `items` merged, first pair first, into `c`. */
  function MergeAll<T>(c: map<string, seq<T>>, items: seq<(string, seq<T>)>): map<string, seq<T>>
  {
    if items == [] then c
    else Merge(MergeAll(c, items[..|items| - 1]), items[|items| - 1].0, items[|items| - 1].1)
  }

  /** Merging keeps every old key, with its old list at the end. */
  lemma {:induction false} MergeAllKeepsEnds<T>(c: map<string, seq<T>>, items: seq<(string, seq<T>)>)
    ensures var r := MergeAll(c, items);
      forall k :: k in c ==> k in r && EndsWith(r[k], c[k])
  {
    if items != [] {
      var m := MergeAll(c, items[..|items| - 1]);
      MergeAllKeepsEnds(c, items[..|items| - 1]);
      MergeKeepsEnds(c, m, items[|items| - 1].0, items[|items| - 1].1);
    } else {
      forall k | k in c
        ensures EndsWith(c[k], c[k])
      {
        assert c[k][|c[k]| - |c[k]|..] == c[k];
      }
    }
  }

  /**
   `prepare_transforms`: every pair `build_transform` returns, merged in loop
   order into the existing catalog `c`. No build reads the catalog, so building
   every pair first and merging afterwards yields the same catalog. Every key
   already stored stays, and its list survives at the end of the new one.
   */
  function PrepareTransforms(c: Catalog, t: Tables): (r: Catalog)
    requires WellFormed(t)
    ensures forall k :: k in c ==> k in r && EndsWith(r[k], c[k])
  {
    MergeAllKeepsEnds(c, Builds(t, t.transformations));
    MergeAll(c, Builds(t, t.transformations))
  }
}
