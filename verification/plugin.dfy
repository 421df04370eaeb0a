/**
 The plugin as a whole: the catalog built from the shipped tables, the
 resolver working against it, and `run` acting on what the resolver
 selected.
 */
module Plugin {
  import opened Optional
  import opened Text
  import opened Registry
  import opened Catalog
  import opened CatalogTheory
  import opened CatalogFacts
  import opened ShippedCatalog
  import opened Session
  import opened Reproject
  import opened Driver

  /** Every adjacency row lists at least one target. */
  predicate RowsHaveTargets(t: Tables)
  {
    forall e :: e in t.transformations ==> e.targets != []
  }

  lemma InfixLength<T>(a: seq<T>, b: seq<T>)
    requires Infix(a, b)
    ensures |a| <= |b|
  {
  }

  /** Building on a catalog without empty entries, from rows that all have targets, leaves none empty. */
  lemma PrepareTransformsNoEmptyLists(c: Catalog, t: Tables)
    requires WellFormed(t) && RowsHaveTargets(t)
    requires NoEmptyLists(c)
    ensures NoEmptyLists(PrepareTransforms(c, t))
  {
    var p := PrepareTransforms(c, t);
    forall k | k in p
      ensures p[k] != []
    {
      PrepareTransformsLookup(c, t, k);
      if k !in c {
        PrepareTransformsKeys(c, t, k);
        var e :| e in t.transformations && RowKey(t, e, k);
        var zone := if t.epsgs[e.source].utm then ZoneOfKey(e.source, k) else None;
        if zone.Some? {
          ZoneOfKeyRoundTrip(e.source, k, zone.value);
        }
        PrepareTransformsKeepsRow(c, t, e, zone);
        InfixLength(BuildList(t, e.source, e.targets, zone), Lookup(p, k));
      }
    }
  }

  /**
   `SUPPORTED_TRANSFORMS` after `__init__`, which builds the catalog twice:
   the keys of a single pass, each holding its single-pass list twice, none
   of them empty.
   */
  function PluginCatalog(pluginDir: string): (r: Catalog)
    requires BraceFree(pluginDir)
    ensures NoEmptyLists(r)
    ensures r.Keys == SinglePassCatalog(pluginDir).Keys
    ensures forall k :: Lookup(r, k) == Lookup(SinglePassCatalog(pluginDir), k) + Lookup(SinglePassCatalog(pluginDir), k)
  {
    var t := Shipped(pluginDir);
    ShippedHasShape(pluginDir);
    ShapeNoEmptyLists(t);
    InitCatalogKeys(t);
    InitCatalogDoublesAll(t);
    InitCatalog(t)
  }

  /** The catalog built once, as the rest of the plugin evidently expects: no entry is empty. */
  function SinglePassCatalog(pluginDir: string): (r: Catalog)
    requires BraceFree(pluginDir)
    ensures WellFormed(Shipped(pluginDir)) && r == OnePass(Shipped(pluginDir))
    ensures NoEmptyLists(r)
  {
    ShippedHasShape(pluginDir);
    ShapeNoEmptyLists(Shipped(pluginDir));
    OnePass(Shipped(pluginDir))
  }

  /**
   The picker entries for a row's list: for each target in order, the
   target's registry name with its zoned code.
   */
  lemma PickerShowsTargets(t: Tables, e: AdjEntry, zone: Option<Zone>)
    requires EntryOk(t, e)
    ensures var names := TargetNames(BuildTransform(t, e, zone).1);
      && |names| == |e.targets|
      && forall i :: 0 <= i < |names| ==>
           && e.targets[i] in t.epsgs
           && names[i] == Display(t.epsgs[e.targets[i]].name, CodeText(e.targets[i], zone))
  {
    var ts := BuildTransform(t, e, zone).1;
    forall i | 0 <= i < |ts|
      ensures e.targets[i] in t.epsgs
      ensures TargetNames(ts)[i] == Display(t.epsgs[e.targets[i]].name, CodeText(e.targets[i], zone))
    {
      assert e.targets[i] in e.targets;
    }
  }

  lemma ShapeRowsHaveTargets(t: Tables)
    requires t.transformations == Transformations
    ensures RowsHaveTargets(t)
  {
    TransformationsRows();
  }

  /** Tables of the shipped shape build catalogs without empty entries, after one pass or two. */
  lemma ShapeNoEmptyLists(t: Tables)
    requires ShippedShape(t)
    ensures WellFormed(t)
    ensures NoEmptyLists(OnePass(t)) && NoEmptyLists(InitCatalog(t))
  {
    WellFormedFromKeys(t);
    ShapeRowsHaveTargets(t);
    var empty: Catalog := map[];
    PrepareTransformsNoEmptyLists(empty, t);
    PrepareTransformsNoEmptyLists(OnePass(t), t);
  }

  /**
   Against the plugin's catalog, built twice as written or once as intended,
   opening any file and choosing any entry the picker can report never raise,
   and the session stays in step with the catalog.
   */
  lemma ShippedResolverNeverRaises(pluginDir: string, c: Catalog, s: Session, probe: Probe, crs: Option<string>, index: int)
    requires BraceFree(pluginDir)
    requires c == PluginCatalog(pluginDir) || c == SinglePassCatalog(pluginDir)
    requires Synced(c, s)
    requires PickerIndex(s, index)
    ensures OpenInput(c, s, probe).Done? && Synced(c, OpenInput(c, s, probe).value)
    ensures Validate(c, s, crs, index).Done? && Synced(c, Validate(c, s, crs, index).value)
  {
    OpenInputNoRaise(c, s, probe);
    OpenInputKeepsSynced(c, s, probe);
    ValidateNoRaise(c, s, crs, index);
    ValidateKeepsSynced(c, s, crs, index);
  }

  // ---------------------------------------------------------------------
  // Opening an AGD66 zone 49 file
  // ---------------------------------------------------------------------

  /** The `EPSG:20249` entry after one pass and after two. */
  lemma Entry20249(t: Tables)
    requires ShippedShape(t)
    ensures WellFormed(t)
    ensures var once := Lookup(OnePass(t), "EPSG:20249");
      && "EPSG:20249" in OnePass(t) && "EPSG:20249" in InitCatalog(t)
      && |once| == 1
      && Lookup(InitCatalog(t), "EPSG:20249") == once + once
  {
    Key20249(t);
    InitCatalogDoubles(t, "EPSG:20249");
    InitCatalogKeys(t);
  }

  /** A CRS whose entry holds one transform twice offers it twice, and the picker repeats its name. */
  lemma OpenDoubled(c: Catalog, s: Session, crs: string, x: Transform)
    requires crs != "" && crs in c && c[crs] == [x, x]
    ensures var r := OpenInput(c, s, VectorLayer(crs));
      && r.Done?
      && r.value.transforms == [x, x]
      && |r.value.picker| == 2 && r.value.picker[0] == r.value.picker[1]
  {
    OpenInputSupported(c, s, VectorLayer(crs), crs);
  }

  lemma DoubledSingle(c: Catalog, k: string, once: seq<Transform>)
    requires k in c && Lookup(c, k) == once + once && |once| == 1
    ensures c[k] == [once[0], once[0]]
  {
  }

  /** Built twice from tables of the shipped shape, the `EPSG:20249` entry offers its transform twice. */
  lemma Open20249Twice(t: Tables, s: Session)
    requires ShippedShape(t)
    ensures WellFormed(t)
    ensures var r := OpenInput(InitCatalog(t), s, VectorLayer("EPSG:20249"));
      && r.Done?
      && |r.value.transforms| == 2
      && r.value.transforms[0] == r.value.transforms[1]
      && |r.value.picker| == 2 && r.value.picker[0] == r.value.picker[1]
  {
    var k := "EPSG:20249";
    Entry20249(t);
    var once := Lookup(OnePass(t), k);
    DoubledSingle(InitCatalog(t), k, once);
    OpenDoubled(InitCatalog(t), s, k, once[0]);
  }

  /**
   As the plugin is written, the catalog is built twice, so the AGD66 zone 49
   entry offers the same transform twice and the picker shows its target
   name twice.
   */
  lemma Open20249AsWritten(pluginDir: string, s: Session)
    requires BraceFree(pluginDir)
    ensures var r := OpenInput(PluginCatalog(pluginDir), s, VectorLayer("EPSG:20249"));
      && r.Done?
      && |r.value.transforms| == 2
      && r.value.transforms[0] == r.value.transforms[1]
      && |r.value.picker| == 2 && r.value.picker[0] == r.value.picker[1]
  {
    ShippedHasShape(pluginDir);
    Open20249Twice(Shipped(pluginDir), s);
  }

  /**
   Opening a vector file whose CRS holds a single transform with a grid and no
   target PROJ string selects it; a run then completes exactly when its grid
   step returns, and writes one shapefile, the output, labelled with the
   target code.
   */
  lemma OpenSingleAndRun(c: Catalog, s: Session, crs: string, x: Transform, inText: string, outText: string, e: Engine)
    requires crs != "" && crs in c && c[crs] == [x]
    requires x.grid.Some? && !Truthy(x.targetProj)
    ensures var loaded := OpenInput(c, s, VectorLayer(crs));
      && loaded.Done?
      && loaded.value.transforms == [x] && loaded.value.selected == Some(x)
      && loaded.value.picker == [x.targetName]
      && var r := Run(loaded.value, inText, outText, e);
      && (r.Done? <==> FetchReturns(e))
      && (r.Done? ==> Writes(r.value.ops) == [WriteShapefile(InputLayer, OutputName(inText, outText, Vector), FromCode(x.targetCode))])
  {
    var loaded := OpenInput(c, s, VectorLayer(crs));
    OpenInputSupported(c, s, VectorLayer(crs), crs);
    var out := OutputName(inText, outText, Vector);
    RunPlanned(loaded.value, inText, outText, e, Vector);
    if FetchReturns(e) {
      var ops := VectorPlan(x, out, e).ops;
      WritesOfTwo(ops[0], ops[1]);
      WritesOfOne(ops[0]);
      WritesOfOne(ops[1]);
      GridOpsWriteNothing(x.grid.value, e, ops);
    }
  }

  /**
   With the catalog built once, opening an AGD66 zone 49 vector file offers
   exactly one transform, `AGD66 to GDA94` through the AGD66 grid; whatever the
   engine answers, a run whose grid step returns writes one shapefile, the
   output, in EPSG:28349.
   */
  lemma Open20249AndRun(pluginDir: string, s: Session, inText: string, outText: string, e: Engine)
    requires BraceFree(pluginDir)
    ensures var loaded := OpenInput(SinglePassCatalog(pluginDir), s, VectorLayer("EPSG:20249"));
      && loaded.Done?
      && |loaded.value.transforms| == 1
      && loaded.value.selected.Some?
      && loaded.value.selected.value.name == "AGD66 to GDA94"
      && loaded.value.selected.value.grid == Some(GridPath(pluginDir, Agd66Grid))
      && |loaded.value.picker| == 1 && loaded.value.picker[0] == loaded.value.selected.value.targetName
      && var r := Run(loaded.value, inText, outText, e);
      && (r.Done? <==> FetchReturns(e))
      && (r.Done? ==> Writes(r.value.ops) == [WriteShapefile(InputLayer, OutputName(inText, outText, Vector), FromCode(28349))])
  {
    var c := SinglePassCatalog(pluginDir);
    OnePass20249(pluginDir);
    var ts := Lookup(c, "EPSG:20249");
    assert "EPSG:20249" in c;
    assert c["EPSG:20249"] == [ts[0]];
    OpenSingleAndRun(c, s, "EPSG:20249", ts[0], inText, outText, e);
  }

  /**
   A file whose CRS is blank keeps the previous file's selection while its
   own type is recorded, so pressing OK runs that earlier transform on the
   new file: the grid step, then the new type's plan.
   */
  lemma OpenBlankThenRunStale(c: Catalog, s: Session, x: Transform, probe: Probe,
                              inText: string, outText: string, e: Engine)
    requires probe == VectorLayer("") || probe == RasterLayer("")
    requires s.selected == Some(x) && x.grid.Some?
    ensures var loaded := OpenInput(c, s, probe);
      var ty := if probe.VectorLayer? then Vector else Raster;
      && loaded.Done?
      && loaded.value.selected == Some(x)
      && var r := Run(loaded.value, inText, outText, e);
      && (r.Done? <==> FetchReturns(e))
      && (r.Done? ==> r.value.ops == GridOps(x.grid.value, e) + PlanFor(x, OutputName(inText, outText, ty), e, ty).ops)
  {
    var ty := if probe.VectorLayer? then Vector else Raster;
    OpenInputBlankCrs(c, s, probe);
    RunPlanned(OpenInput(c, s, probe).value, inText, outText, e, ty);
  }
}
