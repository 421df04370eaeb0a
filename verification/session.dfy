/**
 The resolver (`validate_source_transform`) and the input-file step that
 calls it (`update_infile`), as pure transitions of the plugin's session
 state: the transforms on offer for the current input, the one selected, the
 names in the target picker and the text shown in the dialog.
 */
module Session {
  import opened Optional
  import opened Text
  import opened Catalog

  /** `in_file_type`: what the input was recognised as. */
  datatype FileType = Vector | Raster

  /** The instance and class attributes the resolver and `run` read and write. */
  datatype Session = Session(
    inFile: Option<string>,         // in_file
    outFile: Option<string>,        // out_file
    inFileType: Option<FileType>,   // in_file_type
    transforms: seq<Transform>,     // TRANSFORMS
    selected: Option<Transform>,    // SELECTED_TRANSFORM
    picker: seq<string>,            // the entries of out_crs_picker
    message: string)                // the HTML in transform_text

  /**
   The Python exceptions the resolver and `run` can raise; `DownloadError`
   stands for whatever escapes the grid download (an `IOError` from
   `urlretrieve`, or the `KeyError` of a reply without a status).
   */
  datatype PyError = IndexError | TypeError | DownloadError

  /**
   A step that either completes with a value or raises. A raised step keeps
   the session as the exception left it: the slot that raised only reports
   the exception, and the attributes assigned before it stay assigned.
   */
  datatype Outcome<T> = Done(value: T) | Raised(error: PyError, left: Session)

  // ---------------------------------------------------------------------
  // Dialog texts
  // ---------------------------------------------------------------------

  const StartText := "Choose an in file to get started."
  const SelectInputText := "Select an input file."
  const UnidentifiedText := "Unable to identify the source file's CRS..."
  const UnreadableText := "Couldn't read 'In file.'"

  function UnsupportedText(crs: string): string
  {
    "The CRS " + crs + " for the selected input file is not supported."
  }

  /** The description of the selected transform. */
  function Summary(x: Transform): string
  {
    "Source CRS is " + x.sourceName + "<br>Destination CRS is " + x.targetName
    + "<br><br>Transforming from " + x.name + " " + x.gridText
  }

  /** The session right after the plugin is created and its dialog built. */
  function Initial(): Session
  {
    Session(None, None, None, [], None, [], StartText)
  }

  // ---------------------------------------------------------------------
  // Helpers
  // ---------------------------------------------------------------------

  /** Python's `xs[i]`: negative indices count from the end; anything else out of range raises. */
  function PyIndex<T>(xs: seq<T>, i: int): (r: Option<T>)
    ensures r.Some? <==> -|xs| <= i < |xs|
    ensures 0 <= i < |xs| ==> r == Some(xs[i])
    ensures -|xs| <= i < 0 ==> r == Some(xs[|xs| + i])
    ensures r.Some? ==> r.value in xs
  {
    if 0 <= i < |xs| then Some(xs[i])
    else if -|xs| <= i < 0 then Some(xs[|xs| + i])
    else None
  }

  /** The picker entries for a list of transforms: their target names, in order. */
  function TargetNames(ts: seq<Transform>): (r: seq<string>)
    ensures |r| == |ts|
    ensures forall i :: 0 <= i < |ts| ==> r[i] == ts[i].targetName
  {
    seq(|ts|, i requires 0 <= i < |ts| => ts[i].targetName)
  }

  /** Every key of the catalog holds at least one transform. */
  predicate NoEmptyLists(c: Catalog)
  {
    forall k :: k in c ==> c[k] != []
  }

  // ---------------------------------------------------------------------
  // The resolver
  // ---------------------------------------------------------------------

  /**
   `validate_source_transform(crs)` against the catalog `c`. `crs` is the
   detected CRS string (absent when the picker changed), `index` the picker's
   `currentIndex()`.
   */
  function Validate(c: Catalog, s: Session, crs: Option<string>, index: int): (r: Outcome<Session>)
    ensures r.Done? ==> r.value.inFile == s.inFile && r.value.outFile == s.outFile
    ensures r.Raised? ==> r.error == IndexError
    ensures r.Raised? ==> r.left == s.(transforms := r.left.transforms)
    ensures r.Raised? ==> r.left.transforms == [] || r.left.transforms == s.transforms
    ensures r.Done? && r.value.selected != s.selected ==>
      r.value.selected.Some? && r.value.message == Summary(r.value.selected.value)
  {
    if !Truthy(s.inFile) && s.inFileType.None? then
      Done(s.(message := SelectInputText))
    else if Truthy(crs) then
      if crs.value in c then
        var ts := c[crs.value];
        if ts == [] then Raised(IndexError, s.(transforms := ts))
        else Done(s.(transforms := ts, selected := Some(ts[0]), picker := TargetNames(ts), message := Summary(ts[0])))
      else
        Done(s.(inFileType := None, message := UnsupportedText(crs.value)))
    else if index != -1 then
      match PyIndex(s.transforms, index)
      case Some(x) => Done(s.(selected := Some(x), message := Summary(x)))
      case None => Raised(IndexError, s)
    else
      Done(s.(message := UnidentifiedText))
  }

  /** What `update_infile` learns from probing a file name. */
  datatype Probe =
    | Missing                         // no file at that path
    | Unreadable                      // neither a vector nor a raster
    | VectorLayer(vectorCrs: string)  // a valid vector layer, with its `authid()`
    | RasterLayer(rasterCrs: string)  // a raster GDAL opens, with its `authid()`

  /**
   `update_infile` after the probe: the file type and picker are cleared
   first, then a recognised file is resolved by its CRS. The cleared picker
   reports index -1.
   */
  function OpenInput(c: Catalog, s: Session, probe: Probe): (r: Outcome<Session>)
    ensures r.Done? ==> r.value.inFile == s.inFile
    ensures probe.Missing? || probe.Unreadable? ==> r.Done? && r.value.inFileType.None? && r.value.picker == []
    ensures r.Raised? ==> r.left.inFileType.Some? && r.left.picker == [] && r.left.transforms == []
  {
    var cleared := s.(inFileType := None, picker := []);
    match probe
    case Missing => Done(cleared)
    case Unreadable => Done(cleared.(message := UnreadableText))
    case VectorLayer(crs) => Validate(c, cleared.(inFileType := Some(Vector)), Some(crs), -1)
    case RasterLayer(crs) => Validate(c, cleared.(inFileType := Some(Raster)), Some(crs), -1)
  }

  // ---------------------------------------------------------------------
  // The session invariant
  // ---------------------------------------------------------------------

  /**
   The session agrees with the catalog: the offered transforms are one
   catalog entry, the selection is one of them, and the picker is empty or
   lists their target names.
   */
  predicate Synced(c: Catalog, s: Session)
  {
    && (s.transforms == [] || exists k :: k in c && c[k] == s.transforms)
    && (s.selected.Some? ==> s.selected.value in s.transforms)
    && (s.picker == [] || s.picker == TargetNames(s.transforms))
  }

  /** An index the picker can report: -1, or the position of one of its entries. */
  predicate PickerIndex(s: Session, index: int)
  {
    index == -1 || 0 <= index < |s.picker|
  }

  lemma InitialSynced(c: Catalog)
    ensures Synced(c, Initial())
    ensures Initial().selected.None?
  {
  }

  lemma ValidateKeepsSynced(c: Catalog, s: Session, crs: Option<string>, index: int)
    requires Synced(c, s)
    requires Validate(c, s, crs, index).Done?
    ensures Synced(c, Validate(c, s, crs, index).value)
  {
    if Truthy(s.inFile) || s.inFileType.Some? {
      if Truthy(crs) && crs.value in c {
        var ts := c[crs.value];
        assert crs.value in c && c[crs.value] == ts;
      }
    }
  }

  /** In a synced session with a picker index the picker can report, the resolver never raises. */
  lemma ValidateNoRaise(c: Catalog, s: Session, crs: Option<string>, index: int)
    requires Synced(c, s) && NoEmptyLists(c)
    requires PickerIndex(s, index)
    ensures Validate(c, s, crs, index).Done?
  {
  }

  /** A supported CRS offers its whole catalog entry and selects its first transform, shown first in the picker. */
  lemma ValidateSupported(c: Catalog, s: Session, crs: string, index: int)
    requires Truthy(s.inFile) || s.inFileType.Some?
    requires crs != "" && crs in c && c[crs] != []
    ensures var r := Validate(c, s, Some(crs), index);
      && r.Done?
      && r.value.transforms == c[crs]
      && r.value.selected == Some(c[crs][0])
      && r.value.picker[0] == r.value.selected.value.targetName
      && |r.value.picker| == |c[crs]|
      && r.value.inFileType == s.inFileType
  {
  }

  /**
   An unsupported CRS clears the file type and names the CRS in the dialog,
   but keeps the transforms, selection and picker from before.
   */
  lemma ValidateUnsupported(c: Catalog, s: Session, crs: string, index: int)
    requires Truthy(s.inFile) || s.inFileType.Some?
    requires crs != "" && crs !in c
    ensures var r := Validate(c, s, Some(crs), index);
      && r.Done?
      && r.value.inFileType.None?
      && r.value.transforms == s.transforms && r.value.selected == s.selected && r.value.picker == s.picker
      && Contains(r.value.message, crs)
  {
    ContainsSuffix("The CRS ", crs);
    ContainsPrefixOf("The CRS " + crs, crs, " for the selected input file is not supported.");
  }

  /** Choosing picker entry `index` selects the transform whose target name that entry shows. */
  lemma ValidatePicked(c: Catalog, s: Session, index: int)
    requires Truthy(s.inFile) || s.inFileType.Some?
    requires Synced(c, s)
    requires 0 <= index < |s.picker|
    ensures var r := Validate(c, s, None, index);
      && r.Done?
      && r.value.selected == Some(s.transforms[index])
      && r.value.selected.value.targetName == s.picker[index]
      && r.value.transforms == s.transforms && r.value.picker == s.picker
      && r.value.inFileType == s.inFileType
  {
  }

  /**
   A supported CRS whose catalog entry is empty raises when the first
   transform is read, after the empty entry has already been stored: the
   offered transforms are cleared while the old selection stays, so a
   session that had a selection is left out of step with the catalog.
   */
  lemma ValidateEmptyEntryRaises(c: Catalog, s: Session, crs: string, index: int)
    requires Truthy(s.inFile) || s.inFileType.Some?
    requires crs != "" && crs in c && c[crs] == []
    ensures var r := Validate(c, s, Some(crs), index);
      && r.Raised? && r.error == IndexError
      && r.left.transforms == [] && r.left.selected == s.selected && r.left.message == s.message
      && (s.selected.Some? ==> !Synced(c, r.left))
  {
  }

  /** Without a CRS and with no picker entry chosen, or without any input, only the text changes. */
  lemma ValidateOnlyMessage(c: Catalog, s: Session, crs: Option<string>, index: int)
    requires (!Truthy(s.inFile) && s.inFileType.None?) || (!Truthy(crs) && index == -1)
    ensures Validate(c, s, crs, index).Done?
    ensures Validate(c, s, crs, index).value == s.(message := Validate(c, s, crs, index).value.message)
    ensures Validate(c, s, crs, index).value.message in {SelectInputText, UnidentifiedText}
  {
  }

  lemma OpenInputKeepsSynced(c: Catalog, s: Session, probe: Probe)
    requires Synced(c, s)
    requires OpenInput(c, s, probe).Done?
    ensures Synced(c, OpenInput(c, s, probe).value)
  {
    var cleared := s.(inFileType := None, picker := []);
    match probe
    case Missing =>
    case Unreadable =>
    case VectorLayer(crs) =>
      ValidateKeepsSynced(c, cleared.(inFileType := Some(Vector)), Some(crs), -1);
    case RasterLayer(crs) =>
      ValidateKeepsSynced(c, cleared.(inFileType := Some(Raster)), Some(crs), -1);
  }

  /** Opening a file never raises when every catalog entry holds a transform. */
  lemma OpenInputNoRaise(c: Catalog, s: Session, probe: Probe)
    requires NoEmptyLists(c)
    ensures OpenInput(c, s, probe).Done?
  {
  }

  /**
   A recognised file whose CRS is in the catalog ends with that entry's first
   transform selected and its type recorded, whatever was selected before.
   */
  lemma OpenInputSupported(c: Catalog, s: Session, probe: Probe, crs: string)
    requires probe == VectorLayer(crs) || probe == RasterLayer(crs)
    requires crs != "" && crs in c && c[crs] != []
    ensures var r := OpenInput(c, s, probe);
      && r.Done?
      && r.value.selected == Some(c[crs][0])
      && r.value.transforms == c[crs]
      && r.value.inFileType == Some(if probe.VectorLayer? then Vector else Raster)
  {
  }

  /**
   A recognised file whose CRS is not in the catalog leaves no file type, an
   empty picker and whatever selection the session held before.
   */
  lemma OpenInputUnsupported(c: Catalog, s: Session, probe: Probe, crs: string)
    requires probe == VectorLayer(crs) || probe == RasterLayer(crs)
    requires crs != "" && crs !in c
    ensures var r := OpenInput(c, s, probe);
      && r.Done?
      && r.value.inFileType.None?
      && r.value.selected == s.selected && r.value.transforms == s.transforms
      && r.value.picker == []
  {
  }

  /** A recognised file with a blank CRS cannot be resolved: its type stays recorded, nothing is selected anew. */
  lemma OpenInputBlankCrs(c: Catalog, s: Session, probe: Probe)
    requires probe == VectorLayer("") || probe == RasterLayer("")
    ensures var r := OpenInput(c, s, probe);
      && r.Done?
      && r.value.message == UnidentifiedText
      && r.value.selected == s.selected && r.value.transforms == s.transforms
      && r.value.inFileType == Some(if probe.VectorLayer? then Vector else Raster)
  {
  }
}
