/**
 What `run` does once the dialog is accepted: refuse without a selected
 transform, fetch a missing grid, read the file names from the dialog,
 default the output name, and hand over to the vector or raster plan.
 */
module Driver {
  import opened Optional
  import opened Text
  import opened Catalog
  import opened Session
  import opened Reproject

  const DownloadingText := "Downloading required grid file, please wait..."
  const FinishedText := "Finished processing..."

  /** How a run ended. */
  datatype RunStatus =
    | NoTransform             // nothing selected: stopped before any engine call
    | InvalidSettings         // no input type: nothing transformed
    | Finished(plan: Status)  // the vector or raster plan ran

  datatype RunResult = RunResult(session: Session, ops: seq<Op>, status: RunStatus)

  /** The grid step returns: the grid file is already there, or downloading it raises nothing. */
  predicate FetchReturns(e: Engine)
  {
    e.gridPresent || !e.fetchRaises
  }

  /** The operations a run starts with: the download of `grid`, exactly when that file is missing. */
  function GridOps(grid: string, e: Engine): (r: seq<Op>)
    ensures r != [] <==> !e.gridPresent
    ensures forall i :: 0 <= i < |r| ==> r[i] == FetchGrid(grid)
    ensures |r| <= 1
  {
    if e.gridPresent then [] else [FetchGrid(grid)]
  }

  /**
   The output file `run` uses: the dialog's name when it is non-empty, else
   the input's stem with `_transformed` and the type's extension.
   */
  function OutputName(inText: string, outText: string, ty: FileType): (r: string)
    ensures r != ""
    ensures outText != "" ==> r == outText
    ensures outText == "" ==> SplitExt(r) == (SplitExt(inText).0 + "_transformed", DefaultExt(ty))
  {
    if outText == "" then DefaultOutName(inText, ty) else outText
  }

  /**
   `run` after OK, with `inText` and `outText` the dialog's file names. A
   selected transform without a grid makes `os.path.isfile(None)` raise; a
   missing grid whose download raises ends the run there.
   */
  function Run(s: Session, inText: string, outText: string, e: Engine): (r: Outcome<RunResult>)
    ensures r.Raised? <==> s.selected.Some? && (s.selected.value.grid.None? || !FetchReturns(e))
    ensures r.Raised? ==> r.error == (if s.selected.value.grid.None? then TypeError else DownloadError)
    ensures r.Raised? ==> r.left == s.(message := r.left.message)
    ensures r.Raised? ==> r.left.message == (if r.error == DownloadError then DownloadingText else s.message)
    ensures r.Done? ==> r.value.session.transforms == s.transforms && r.value.session.selected == s.selected
    ensures r.Done? ==> r.value.session.picker == s.picker && r.value.session.inFileType == s.inFileType
  {
    if s.selected.None? then Done(RunResult(s, [], NoTransform))
    else
      var x := s.selected.value;
      if x.grid.None? then Raised(TypeError, s)
      else if !FetchReturns(e) then Raised(DownloadError, s.(message := DownloadingText))
      else
        var fetch := GridOps(x.grid.value, e);
        var read := s.(inFile := Some(inText), outFile := Some(outText),
                       message := if e.gridPresent then s.message else DownloadingText);
        match s.inFileType
        case None => Done(RunResult(read.(message := FinishedText), fetch, InvalidSettings))
        case Some(ty) =>
          var out := OutputName(inText, outText, ty);
          var plan := if ty == Vector then VectorPlan(x, out, e) else RasterPlan(x, out, e);
          Done(RunResult(read.(outFile := Some(out), message := FinishedText), fetch + plan.ops, Finished(plan.status)))
  }

  /** Without a selected transform `run` stops before any engine call and changes nothing. */
  lemma RunNeedsSelection(s: Session, inText: string, outText: string, e: Engine)
    requires s.selected.None?
    ensures Run(s, inText, outText, e) == Done(RunResult(s, [], NoTransform))
  {
  }

  /** A selected transform without a grid raises before anything is written. */
  lemma RunWithoutGridRaises(s: Session, inText: string, outText: string, e: Engine)
    requires s.selected.Some? && s.selected.value.grid.None?
    ensures Run(s, inText, outText, e) == Raised(TypeError, s)
  {
  }

  /**
   A missing grid whose download raises ends the run with that error, before
   anything is written, and the dialog keeps showing the downloading notice.
   */
  lemma RunDownloadRaises(s: Session, inText: string, outText: string, e: Engine)
    requires s.selected.Some? && s.selected.value.grid.Some?
    requires !e.gridPresent && e.fetchRaises
    ensures Run(s, inText, outText, e) == Raised(DownloadError, s.(message := DownloadingText))
  {
  }

  /**
   With a grid the run completes exactly when the grid step returns; the grid
   is then downloaded first, exactly when it is missing, and nothing else is
   downloaded.
   */
  lemma RunFetchesMissingGrid(s: Session, inText: string, outText: string, e: Engine)
    requires s.selected.Some? && s.selected.value.grid.Some?
    ensures var r := Run(s, inText, outText, e);
      && (r.Done? <==> FetchReturns(e))
      && (r.Done? ==>
            && (!e.gridPresent <==> |r.value.ops| > 0 && r.value.ops[0] == FetchGrid(s.selected.value.grid.value))
            && (forall i :: 0 < i < |r.value.ops| ==> !r.value.ops[i].FetchGrid?))
  {
    var x := s.selected.value;
    var r := Run(s, inText, outText, e);
    var fetch := GridOps(x.grid.value, e);
    if FetchReturns(e) && s.inFileType.Some? {
      var ty := s.inFileType.value;
      var out := OutputName(inText, outText, ty);
      var plan := if ty == Vector then VectorPlan(x, out, e) else RasterPlan(x, out, e);
      assert r.value.ops == fetch + plan.ops;
      assert forall i :: 0 <= i < |plan.ops| ==> !plan.ops[i].FetchGrid?;
    }
  }

  /** Without an input type nothing is written, though a missing grid is still downloaded. */
  lemma RunInvalidSettingsWritesNothing(s: Session, inText: string, outText: string, e: Engine)
    requires s.selected.Some? && s.selected.value.grid.Some? && s.inFileType.None?
    ensures var r := Run(s, inText, outText, e);
      && (r.Done? <==> FetchReturns(e))
      && (r.Done? ==>
            && r.value.status == InvalidSettings
            && Writes(r.value.ops) == []
            && r.value.session.inFile == Some(inText))
  {
    var fetch := GridOps(s.selected.value.grid.value, e);
    if FetchReturns(e) && !e.gridPresent {
      WritesOfOne(fetch[0]);
    }
  }

  /** The plan a run with an input type hands over to. */
  function PlanFor(x: Transform, out: string, e: Engine, ty: FileType): Plan
  {
    if ty == Vector then VectorPlan(x, out, e) else RasterPlan(x, out, e)
  }

  /**
   A run with a grid and an input type, whose grid step returns, performs
   that step, then that type's plan on the output name.
   */
  lemma RunPlanned(s: Session, inText: string, outText: string, e: Engine, ty: FileType)
    requires s.selected.Some? && s.selected.value.grid.Some? && s.inFileType == Some(ty)
    ensures var r := Run(s, inText, outText, e);
      var plan := PlanFor(s.selected.value, OutputName(inText, outText, ty), e, ty);
      && (r.Done? <==> FetchReturns(e))
      && (r.Done? ==>
            && r.value.ops == GridOps(s.selected.value.grid.value, e) + plan.ops
            && r.value.status == Finished(plan.status)
            && r.value.session.outFile == Some(OutputName(inText, outText, ty)))
  {
  }

  /** The grid download writes nothing. */
  lemma GridOpsWriteNothing(grid: string, e: Engine, ops: seq<Op>)
    ensures Writes(GridOps(grid, e) + ops) == Writes(ops)
  {
    var fetch := GridOps(grid, e);
    WritesAppend(fetch, ops);
    if !e.gridPresent {
      WritesOfOne(fetch[0]);
    }
  }

  /**
   A vector run whose grid step returns, and that gets past the intermediate
   write, writes last to the output name, labelled with the target code.
   */
  lemma RunVectorOutput(s: Session, inText: string, outText: string, e: Engine)
    requires s.selected.Some? && s.selected.value.grid.Some? && s.inFileType == Some(Vector)
    requires !Truthy(s.selected.value.targetProj) || e.intermediateOk
    ensures var r := Run(s, inText, outText, e);
      && (r.Done? <==> FetchReturns(e))
      && (r.Done? ==>
            var ws := Writes(r.value.ops);
            && r.value.session.outFile == Some(OutputName(inText, outText, Vector))
            && |ws| > 0 && ws[|ws| - 1].WriteShapefile?
            && ws[|ws| - 1].dest == OutputName(inText, outText, Vector)
            && ws[|ws| - 1].crs == FromCode(s.selected.value.targetCode))
  {
    var x := s.selected.value;
    var out := OutputName(inText, outText, Vector);
    RunPlanned(s, inText, outText, e, Vector);
    if FetchReturns(e) {
      VectorLastWrite(x, out, e);
      GridOpsWriteNothing(x.grid.value, e, VectorPlan(x, out, e).ops);
    }
  }

  /** The GeoTIFF name of a raster run: the dialog's name with `.tiff` added unless it holds `.tif`, or the default name. */
  lemma RasterRunName(inText: string, outText: string)
    ensures RasterOutName(OutputName(inText, outText, Raster))
         == if outText == "" then DefaultOutName(inText, Raster) else RasterOutName(outText)
  {
    if outText == "" {
      DefaultRasterNameKept(inText);
    }
  }

  /**
   A raster run whose grid step returns writes exactly one file, the GeoTIFF,
   and succeeds exactly when copying it does.
   */
  lemma RunRasterOutput(s: Session, inText: string, outText: string, e: Engine)
    requires s.selected.Some? && s.selected.value.grid.Some? && s.inFileType == Some(Raster)
    ensures var r := Run(s, inText, outText, e);
      && (r.Done? <==> FetchReturns(e))
      && (r.Done? ==>
            && Writes(r.value.ops) == [CopyToTiff(RasterOutName(OutputName(inText, outText, Raster)))]
            && (r.value.status == Finished(Succeeded) <==> e.copyOk))
  {
    var x := s.selected.value;
    var out := OutputName(inText, outText, Raster);
    RunPlanned(s, inText, outText, e, Raster);
    if FetchReturns(e) {
      RasterSingleCopy(x, out, e);
      GridOpsWriteNothing(x.grid.value, e, RasterPlan(x, out, e).ops);
    }
  }
}
