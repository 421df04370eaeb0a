/**
 The reprojection plan of `transform_vector` and `transform_raster`: which
 engine operations run, in which order and with which coordinate reference
 systems, for the selected transform. The engine itself is abstract: an
 `Engine` value supplies the answers its calls give (does the grid exist,
 does its download raise, which temporary directory was made, did each
 write succeed).
 */
module Reproject {
  import opened Optional
  import opened Text
  import opened Registry
  import opened Catalog
  import opened Session

  /** A coordinate reference system handed to the engine: from a PROJ string or from an EPSG code. */
  datatype Crs = FromProj(proj: string) | FromCode(code: int)

  /** The layer a vector write reads: the input, or the intermediate file read back. */
  datatype Layer = InputLayer | Reloaded(path: string)

  /** One engine operation. */
  datatype Op =
    | FetchGrid(gridPath: string)                         // update_local_file for a missing grid
    | AssignSourceCrs(sourceCrs: Crs)                     // layer.setCrs on the input vector
    | WriteShapefile(layer: Layer, dest: string, crs: Crs) // writeAsVectorFormat
    | Warp(from: Crs, to: Crs)                            // AutoCreateWarpedVRT
    | CopyToTiff(tiff: string)                            // the GTiff driver's CreateCopy

  /** What the engine answers. */
  datatype Engine = Engine(
    gridPresent: bool,     // os.path.isfile(grid)
    fetchRaises: bool,     // update_local_file raised: urlretrieve failed, or the reply had no Content-Length and no Status
    tempDir: string,       // tempfile.mkdtemp()
    intermediateOk: bool,  // the intermediate vector write returned NoError
    finalOk: bool,         // the final vector write returned NoError
    copyOk: bool)          // CreateCopy raised nothing

  datatype Status = Succeeded | Failed

  datatype Plan = Plan(ops: seq<Op>, status: Status)

  /** The file the intermediate vector write goes to, inside the fresh temporary directory. */
  const TempName := "temp_file.shp"

  function TempFile(e: Engine): string
  {
    PathJoin(e.tempDir, TempName)
  }

  // ---------------------------------------------------------------------
  // Coordinate reference systems
  // ---------------------------------------------------------------------

  /** The source CRS: from the PROJ string when it is non-empty, else from the source code. */
  function SourceCrs(x: Transform): (r: Crs)
    ensures r.FromProj? <==> Truthy(x.sourceProj)
    ensures r.FromProj? ==> r.proj == x.sourceProj.value
    ensures r.FromCode? ==> r.code == x.sourceCode
  {
    if Truthy(x.sourceProj) then FromProj(x.sourceProj.value) else FromCode(x.sourceCode)
  }

  /** The target CRS by the same rule; only the raster path uses it unchanged. */
  function TargetCrs(x: Transform): (r: Crs)
    ensures r.FromProj? <==> Truthy(x.targetProj)
    ensures r.FromProj? ==> r.proj == x.targetProj.value
    ensures r.FromCode? ==> r.code == x.targetCode
  {
    if Truthy(x.targetProj) then FromProj(x.targetProj.value) else FromCode(x.targetCode)
  }

  /** The PROJ string a catalog transform carries for a template: formatted for a zone, as written without one. */
  function ZonedProj(p: Template, zone: Option<Zone>): string
  {
    if zone.Some? then Format(p, ZoneText(zone)) else Render(p)
  }

  /**
   The source CRS of a transform `build_transform` made: from the source
   datum's PROJ template, formatted for the zone, exactly when the registry
   has a template that is not empty; otherwise from the zoned EPSG code.
   */
  lemma CatalogSourceCrs(t: Tables, src: string, tgt: string, zone: Option<Zone>)
    requires DatumOk(t, src) && DatumOk(t, tgt)
    ensures var p := t.epsgs[src].proj;
      SourceCrs(MakeTransform(t, src, tgt, zone))
        == if p.Some? && Render(p.value) != "" then FromProj(ZonedProj(p.value, zone)) else FromCode(ZonedCode(src, zone))
  {
    var p := t.epsgs[src].proj;
    if p.Some? && Render(p.value) != "" && zone.Some? {
      FormatNonEmpty(p.value, ZoneText(zone));
    } else if p.Some? && zone.Some? {
      EmptyTemplateHasNoField(p.value, ZoneText(zone));
    }
  }

  /** The target CRS of a transform `build_transform` made, by the same rule for the target datum. */
  lemma CatalogTargetCrs(t: Tables, src: string, tgt: string, zone: Option<Zone>)
    requires DatumOk(t, src) && DatumOk(t, tgt)
    ensures var p := t.epsgs[tgt].proj;
      TargetCrs(MakeTransform(t, src, tgt, zone))
        == if p.Some? && Render(p.value) != "" then FromProj(ZonedProj(p.value, zone)) else FromCode(ZonedCode(tgt, zone))
  {
    var p := t.epsgs[tgt].proj;
    if p.Some? && Render(p.value) != "" && zone.Some? {
      FormatNonEmpty(p.value, ZoneText(zone));
    } else if p.Some? && zone.Some? {
      EmptyTemplateHasNoField(p.value, ZoneText(zone));
    }
  }

  // ---------------------------------------------------------------------
  // Output names
  // ---------------------------------------------------------------------

  /** The extension `run` gives a default output name. */
  function DefaultExt(ty: FileType): string
  {
    if ty == Vector then ".shp" else ".tiff"
  }

  /**
   `run`'s default output name: it splits back into the input's stem with
   `_transformed` added, and the extension of the input's type.
   */
  function DefaultOutName(inFile: string, ty: FileType): (r: string)
    ensures SplitExt(r) == (SplitExt(inFile).0 + "_transformed", DefaultExt(ty))
    ensures r != ""
  {
    SplitExtOfSuffix(SplitExt(inFile).0, "_transformed", DefaultExt(ty));
    SplitExt(inFile).0 + "_transformed" + DefaultExt(ty)
  }

  /** The raster writer's name: `.tiff` is appended unless `.tif` already occurs anywhere in the name. */
  function RasterOutName(out: string): (r: string)
    ensures out <= r
  {
    if Contains(out, ".tif") then out else out + ".tiff"
  }

  /** The raster name always holds `.tif`; it is the name itself exactly when that already did. */
  lemma RasterOutNameTif(out: string)
    ensures Contains(RasterOutName(out), ".tif")
    ensures RasterOutName(out) == out <==> Contains(out, ".tif")
  {
    if !Contains(out, ".tif") {
      assert out + ".tiff" == (out + ".tif") + "f";
      ContainsSuffix(out, ".tif");
      ContainsPrefixOf(out + ".tif", ".tif", "f");
    }
  }

  lemma RasterOutNameIdempotent(out: string)
    ensures RasterOutName(RasterOutName(out)) == RasterOutName(out)
  {
    RasterOutNameTif(out);
    RasterOutNameTif(RasterOutName(out));
  }

  /** A default raster name already ends in `.tiff`, so the raster writer keeps it. */
  lemma DefaultRasterNameKept(inFile: string)
    ensures RasterOutName(DefaultOutName(inFile, Raster)) == DefaultOutName(inFile, Raster)
  {
    var stem := SplitExt(inFile).0 + "_transformed";
    assert DefaultOutName(inFile, Raster) == (stem + ".tif") + "f";
    ContainsSuffix(stem, ".tif");
    ContainsPrefixOf(stem + ".tif", ".tif", "f");
  }

  // ---------------------------------------------------------------------
  // Writes
  // ---------------------------------------------------------------------

  predicate IsWrite(o: Op)
  {
    o.WriteShapefile? || o.CopyToTiff?
  }

  /** The operations that write a file, in order. */
  function Writes(ops: seq<Op>): (r: seq<Op>)
    ensures |r| <= |ops|
    ensures forall o :: o in r ==> o in ops && IsWrite(o)
  {
    if ops == [] then []
    else (if IsWrite(ops[0]) then [ops[0]] else []) + Writes(ops[1..])
  }

  lemma {:induction false} WritesAppend(a: seq<Op>, b: seq<Op>)
    ensures Writes(a + b) == Writes(a) + Writes(b)
  {
    if a == [] {
      assert a + b == b;
    } else {
      assert (a + b)[1..] == a[1..] + b;
      WritesAppend(a[1..], b);
    }
  }

  lemma WritesOfOne(a: Op)
    ensures Writes([a]) == if IsWrite(a) then [a] else []
  {
    assert [a][1..] == [];
  }

  lemma WritesOfTwo(a: Op, b: Op)
    ensures Writes([a, b]) == Writes([a]) + Writes([b])
  {
    assert [a, b] == [a] + [b];
    WritesAppend([a], [b]);
  }

  lemma WritesOfThree(a: Op, b: Op, c: Op)
    ensures Writes([a, b, c]) == Writes([a]) + Writes([b]) + Writes([c])
  {
    assert [a, b, c] == [a] + [b, c];
    WritesAppend([a], [b, c]);
    WritesOfTwo(b, c);
  }

  /** Some shapefile write in `ops` goes to `out`. */
  predicate WritesTo(ops: seq<Op>, out: string)
  {
    exists i :: 0 <= i < |ops| && ops[i].WriteShapefile? && ops[i].dest == out
  }

  // ---------------------------------------------------------------------
  // The vector plan
  // ---------------------------------------------------------------------

  /**
   `transform_vector(out)`: the input layer gets the source CRS; with a
   non-empty target PROJ string the layer is first written to a temporary
   shapefile in that CRS and read back, and the final write then labels it
   with the target code; a failed intermediate write stops there.
   */
  function VectorPlan(x: Transform, out: string, e: Engine): (r: Plan)
    ensures |r.ops| >= 2 && r.ops[0] == AssignSourceCrs(SourceCrs(x))
  {
    var assign := AssignSourceCrs(SourceCrs(x));
    var final := if e.finalOk then Succeeded else Failed;
    if Truthy(x.targetProj) then
      var temp := TempFile(e);
      var first := WriteShapefile(InputLayer, temp, FromProj(x.targetProj.value));
      if e.intermediateOk then
        Plan([assign, first, WriteShapefile(Reloaded(temp), out, FromCode(x.targetCode))], final)
      else
        Plan([assign, first], Failed)
    else
      Plan([assign, WriteShapefile(InputLayer, out, FromCode(x.targetCode))], final)
  }

  /** Two writes when there is a target PROJ string and the intermediate write succeeds; one otherwise. */
  lemma VectorWriteCount(x: Transform, out: string, e: Engine)
    ensures var ws := Writes(VectorPlan(x, out, e).ops);
      && |ws| == (if Truthy(x.targetProj) && e.intermediateOk then 2 else 1)
      && (forall o :: o in ws ==> o.WriteShapefile?)
  {
    var ops := VectorPlan(x, out, e).ops;
    WritesOfOne(ops[0]);
    WritesOfOne(ops[1]);
    if |ops| == 3 {
      WritesOfOne(ops[2]);
      WritesOfThree(ops[0], ops[1], ops[2]);
    } else {
      WritesOfTwo(ops[0], ops[1]);
    }
  }

  /**
   Something is written to `out` unless the intermediate write failed, and
   the run succeeds exactly when that final write does.
   */
  lemma VectorReachesOut(x: Transform, out: string, e: Engine)
    requires out != TempFile(e)
    ensures var p := VectorPlan(x, out, e);
      && (WritesTo(p.ops, out) <==> !Truthy(x.targetProj) || e.intermediateOk)
      && (p.status == Succeeded <==> WritesTo(p.ops, out) && e.finalOk)
  {
    var ops := VectorPlan(x, out, e).ops;
    if Truthy(x.targetProj) && e.intermediateOk {
      assert WritesTo(ops, out) by { assert ops[2].dest == out; }
    } else if Truthy(x.targetProj) {
      assert !WritesTo(ops, out);
    } else {
      assert WritesTo(ops, out) by { assert ops[1].dest == out; }
    }
  }

  /**
   The last write goes to `out` in the CRS of the target code, unless the
   intermediate write failed. When there are two writes, the first goes to the
   temporary file in the target CRS and the second reads it back.
   */
  lemma VectorLastWrite(x: Transform, out: string, e: Engine)
    ensures var ws := Writes(VectorPlan(x, out, e).ops);
      && |ws| > 0 && ws[|ws| - 1].WriteShapefile?
      && (!Truthy(x.targetProj) || e.intermediateOk ==>
            ws[|ws| - 1].dest == out && ws[|ws| - 1].crs == FromCode(x.targetCode))
      && (|ws| == 2 ==>
            ws[0].WriteShapefile? && ws[1].WriteShapefile?
            && ws[0].dest == TempFile(e) && ws[0].crs == TargetCrs(x) && ws[1].layer == Reloaded(ws[0].dest))
  {
    var ops := VectorPlan(x, out, e).ops;
    VectorWriteCount(x, out, e);
    WritesOfOne(ops[0]);
    WritesOfOne(ops[1]);
    if |ops| == 3 {
      WritesOfOne(ops[2]);
      WritesOfThree(ops[0], ops[1], ops[2]);
    } else {
      WritesOfTwo(ops[0], ops[1]);
    }
  }

  // ---------------------------------------------------------------------
  // The raster plan
  // ---------------------------------------------------------------------

  /**
   `transform_raster(out)`: a warped view from the source CRS to the target
   CRS, each from its PROJ string when non-empty, copied to a GeoTIFF.
   */
  function RasterPlan(x: Transform, out: string, e: Engine): (r: Plan)
    ensures |r.ops| == 2
  {
    Plan([Warp(SourceCrs(x), TargetCrs(x)), CopyToTiff(RasterOutName(out))], if e.copyOk then Succeeded else Failed)
  }

  /** A raster run writes exactly one file, a GeoTIFF whose name holds `.tif`, after warping from source to target. */
  lemma RasterSingleCopy(x: Transform, out: string, e: Engine)
    ensures var p := RasterPlan(x, out, e);
      && Writes(p.ops) == [CopyToTiff(RasterOutName(out))]
      && Contains(Writes(p.ops)[0].tiff, ".tif")
      && out <= Writes(p.ops)[0].tiff
      && p.ops[0] == Warp(SourceCrs(x), TargetCrs(x))
      && (p.status == Succeeded <==> e.copyOk)
  {
    var ops := RasterPlan(x, out, e).ops;
    WritesOfOne(ops[0]);
    WritesOfOne(ops[1]);
    WritesOfTwo(ops[0], ops[1]);
    RasterOutNameTif(out);
  }
}
