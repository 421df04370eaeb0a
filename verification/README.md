# ICSM NTv2 Transformer — a Dafny model of its core

The ICSM NTv2 Transformer is a QGIS plugin that reprojects a vector or raster
file between Australian datums (AGD66, AGD84, GDA94, GDA2020), in UTM zones
49–56 or in latitude/longitude. It uses the NTv2 grid files published by ICSM.
This project models three parts of the plugin and proves properties of them:

- **the catalog builder.** `build_transform` and `prepare_transforms` expand the
  static tables into `SUPPORTED_TRANSFORMS`. These tables are the datum registry
  `available_epsgs`, the adjacency list `transformations`, the zone range
  `available_zones` and the grid caveats `GRID_COMMENTS`. The result is a map
  from `"EPSG:<code>"` to an ordered list of `Transform` records.
- **the resolver.** `validate_source_transform` and the `update_infile` step
  that calls it choose the transforms offered for the input file's CRS. They
  also fill the target picker and set the dialog text. The session state
  (`TRANSFORMS`, `SELECTED_TRANSFORM`, `in_file_type`, the picker entries and
  the dialog text) is a value, and each step is a pure function that either
  completes with a new state or raises. A raise carries the state the
  exception left behind, since a Qt slot that raises only reports the error
  and the dialog stays open.
- **the reprojection plan.** `run`, `transform_vector` and `transform_raster`
  do four things. `run` refuses to run without a selection and fetches a
  missing grid. It then defaults the output name. Finally the vector or raster
  path runs its sequence of engine operations: the source CRS assignment,
  the intermediate and final shapefile writes, and the warp and GeoTIFF copy.
  The engine is not modelled. An `Engine` value supplies what its calls answer:
  whether the grid file exists, the temporary directory, and whether each
  write succeeded.

Files:

| file | module | contents |
|---|---|---|
| `optional.dfy` | `Optional` | `Option` |
| `text.dfy` | `Text` | Python truthiness, `str.replace`, `int()`/`str()` on digits, `split(' ')[0]`, `in`, POSIX `basename`/`join`/`splitext` |
| `registry.dfy` | `Registry` | the static tables, PROJ templates, and the well-formedness the builder relies on |
| `catalog.dfy` | `Catalog` | `Transform`, `build_transform`, the merge and the `prepare_transforms` fold |
| `catalog_theory.dfy` | `CatalogTheory` | a reference definition of what the fold stores under each key, and the proof that the fold computes it |
| `catalog_facts.dfy` | `CatalogFacts` | keys, row lists, provenance, and the two calls made by the constructor |
| `shipped_catalog.dfy` | `ShippedCatalog` | the shipped catalog at `EPSG:20249` and `EPSG:28349` |
| `session.dfy` | `Session` | session state, `validate_source_transform`, `update_infile`, the session invariant |
| `reproject.dfy` | `Reproject` | output names, and the vector and raster plans |
| `driver.dfy` | `Driver` | `run` after OK |
| `plugin.dfy` | `Plugin` | everything together: the plugin's own catalog under the resolver and `run` |

Where the code and its documentation disagree, the model follows the code:

- When the input file's CRS is not supported, `TRANSFORMS` and
  `SELECTED_TRANSFORM` keep their earlier values. They are not cleared, so a
  stale selection survives. Only `in_file_type` is cleared.
- When the input file's CRS is blank (`authid()` gives `""`), the same stale
  `TRANSFORMS` and `SELECTED_TRANSFORM` survive, but `in_file_type` stays set
  to the new file's type. Pressing OK then runs the previous file's transform
  on the new file.
- `run` does not check what the grid download fetched. Only an exception
  escaping `update_local_file` ends the run.
- The raster path does not stamp an EPSG code on the file after writing it.
- The vector path does not rewrite the output extension. Only the raster
  writer appends `.tiff`, and only when `.tif` does not already occur anywhere
  in the name.
- `__init__` calls `prepare_transforms` twice on the class-level dictionary,
  so every catalog list holds its transforms twice. See Findings.
- The guard at the top of `validate_source_transform` is
  `not in_file and not in_file_type`. It is not a check on the CRS.

## Model

| member | source | states |
|---|---|---|
| Text.StripVariantMembers | icsm_qgis_transformer.py:220 | removing `c` and then `d` from a registry key keeps exactly the other characters |
| Text.VariantKeysCollide | icsm_qgis_transformer.py:220 | a key with a `c` or `d` tag has the same numeric part as the key without it, so `283d` and `283` both give `283` |
| Text.DecimalString | icsm_qgis_transformer.py:224-225 | `str(zone)` is a run of digits whose `int()` is the zone, and has two digits for every zone 10–99 |
| Text.DigitsValueAppend | icsm_qgis_transformer.py:226 | `int(a + b) == int(a) * 10^len(b) + int(b)`, so the zone fills the last two decimal places of the code |
| Text.FirstWord | icsm_qgis_transformer.py:242 | `split(' ')[0]` is a prefix with no space, ended by a space or by the end of the name |
| Text.Basename | icsm_qgis_transformer.py:257-259 | `os.path.basename` is a suffix of the path with no `/`, preceded by a `/` when it is shorter than the path |
| Text.BasenameOfGridPath | icsm_qgis_transformer.py:83-86 | the basename of `<plugin dir>/grids/<file>` is `<file>` |
| Text.PathJoin | icsm_qgis_transformer.py:443 | `os.path.join(dir, name)` ends with `name`, and starts with `dir` unless `name` is absolute |
| Text.SplitExt | icsm_qgis_transformer.py:665 | `os.path.splitext`: stem and extension concatenate to the path, and the extension is empty or one dot followed by no dot and no `/` |
| Text.SplitExtOfSuffix | icsm_qgis_transformer.py:665-671 | splitting `stem + word + .ext` gives back `stem + word` and `.ext` |
| Registry.Format | icsm_qgis_transformer.py:230-231 | `template.format(zone=z)` leaves a template without `{zone}` unchanged, and otherwise contains the zone text |
| Registry.FormatWithPlaceholder | icsm_qgis_transformer.py:230-231 | formatting with `{zone}` itself gives back the template as written |
| Registry.AvailableZonesAreAllZones | icsm_qgis_transformer.py:196 | `range(49, 57)` lists every zone 49–56, in increasing order |
| Registry.FormatNonEmpty | icsm_qgis_transformer.py:230-231 | a template that is not empty as written stays non-empty once the zone is filled in |
| Registry.AvailableEpsgsKeys | icsm_qgis_transformer.py:111-185 | the registry has exactly the twelve shipped keys |
| Registry.GridCommentsKeys | icsm_qgis_transformer.py:88-108 | `GRID_COMMENTS` describes exactly the four shipped grid files |
| Registry.ShippedTemplatesPlain | icsm_qgis_transformer.py:82-185 | under a plugin directory without braces, every shipped PROJ template holds no brace other than its `{zone}` field |
| Registry.TransformationsReversible | icsm_qgis_transformer.py:199-211 | every transform `transformations` offers has a row going back from its target to its source |
| Registry.ShippedGridDescribed | icsm_qgis_transformer.py:89-108 | each shipped grid path's basename is a key of `GRID_COMMENTS` |
| Registry.ShippedWellFormed | icsm_qgis_transformer.py:199-214 | under a plugin directory without braces, every row of `transformations` names registry keys with numeric codes, whose grids have caveat texts and whose zoned templates format cleanly, so building the catalog raises no `KeyError`, `IndexError`, `ValueError` or `TypeError` |
| Catalog.ZonedCode | icsm_qgis_transformer.py:226 | the zone takes the last two decimal places of the code, and the rest is the key's numeric part |
| Catalog.ZoneText | icsm_qgis_transformer.py:222-225 | the zone string is empty without a zone, and otherwise two digits whose value is the zone |
| Catalog.CodeTextValue | icsm_qgis_transformer.py:226 | `int('{epsg}{zone}')` is the base code times 100 plus the zone, or the base code without a zone |
| Catalog.ZoneOfKeyRoundTrip | icsm_qgis_transformer.py:226-227 | reading the zone out of `EPSG:<code><zone>` gives the zone back, and a key that reads as zone `z` is the key of `z` |
| Catalog.CatalogKeyInjective | icsm_qgis_transformer.py:226-227 | different zones of one datum get different catalog keys |
| Catalog.ProjFor | icsm_qgis_transformer.py:230-231 | a PROJ template is formatted with the zone exactly when there is a zone and the template is non-empty; `None` stays `None` |
| Catalog.ChooseGrid | icsm_qgis_transformer.py:250-254 | there is a grid exactly when the source or the target has a truthy one; it is then one of the two, and the source's wins |
| Catalog.GridText | icsm_qgis_transformer.py:255-259 | the grid text is empty exactly when there is no grid; otherwise it starts `using NTv2 grid: '`, names the grid file's basename and ends with that file's caveat text |
| Catalog.MakeTransform | icsm_qgis_transformer.py:233-261 | a record is named by the first words of the two datum names, its codes are the zoned codes, its names are `"<name> [EPSG:<code>]"`, each PROJ string is present exactly when the registry has one and is formatted for the zone, and it takes the source's grid first |
| Catalog.Merge | icsm_qgis_transformer.py:273-277 | the new list goes in front of the stored one, and no other key changes |
| Catalog.MergeAllKeepsEnds | icsm_qgis_transformer.py:273-277 | merging a sequence of pairs keeps every stored list at the end of its key's new list |
| Catalog.PrepareTransforms | icsm_qgis_transformer.py:265-285 | `prepare_transforms` keeps every key, with its old list at the end of the new one |
| Catalog.ZoneBuilds | icsm_qgis_transformer.py:270-277 | the zone loop produces one pair per zone, in zone order, keyed by that zone |
| CatalogTheory.MergeAllLookup | icsm_qgis_transformer.py:266-285 | merging pairs in order stores under each key the lists of the pairs for that key, latest first, then the old list |
| CatalogTheory.EntryBuildsGather | icsm_qgis_transformer.py:267-285 | the pairs one row produces carry, under each key, exactly that row's reference contribution, and their keys are exactly the row's keys |
| CatalogTheory.BuildsGather | icsm_qgis_transformer.py:266-285 | the pairs the loops build carry, for each key, exactly what the reference definition says the rows contribute |
| CatalogTheory.PrepareTransformsLookup | icsm_qgis_transformer.py:265-285 | after `prepare_transforms`, each key holds the rows' contributions, latest row first, followed by the old list; the keys are the old keys plus the produced ones |
| CatalogFacts.BuildTransformFiled | icsm_qgis_transformer.py:216-263 | `build_transform` returns a key from which the zone reads back, and one record per target, each filed under that key and going to the target's zoned code |
| CatalogFacts.OnePassKeys | icsm_qgis_transformer.py:265-285 | one pass from an empty catalog holds exactly the keys the rows produce |
| CatalogFacts.ZoneKeysMembers | icsm_qgis_transformer.py:270-271 | the zone keys of a datum are exactly the keys naming one of its zones |
| CatalogFacts.PrepareTransformsKeys | icsm_qgis_transformer.py:265-285 | a key is in the catalog after the call iff it was before or some row produces it |
| CatalogFacts.PrepareTransformsHasRowKey | icsm_qgis_transformer.py:268-285 | each row's key exists afterwards, for every zone of a UTM source or once otherwise |
| CatalogFacts.PrepareTransformsKeepsRow | icsm_qgis_transformer.py:268-285 | each row's list for a zone appears as one contiguous block under that zone's key |
| CatalogFacts.PrepareTransformsKeepsOld | icsm_qgis_transformer.py:273-276 | the old list survives at the end of the new one, and a key no row produces keeps its old list exactly |
| CatalogFacts.ContributionPair | icsm_qgis_transformer.py:273-276 | when two rows file under one key, the later row's transforms come first |
| CatalogFacts.PrepareTransformsProvenanced | icsm_qgis_transformer.py:226-244 | every transform is filed under `EPSG:<its source code>`, and its source name ends with `[<that key>]` |
| CatalogFacts.InitCatalogKeys | icsm_qgis_transformer.py:545-548 | the second call of the constructor adds no key |
| CatalogFacts.InitCatalogDoubles | icsm_qgis_transformer.py:545-548 | the second call makes every key hold its first-pass list twice |
| CatalogFacts.InitCatalogProvenanced | icsm_qgis_transformer.py:545-548 | the constructor's catalog keeps every transform under its own source code |
| ShippedCatalog.Key20249 | icsm_qgis_transformer.py:199-203 | after one pass, `EPSG:20249` holds exactly the `202 -> 283` zone 49 transform |
| ShippedCatalog.ShippedTransform20249 | icsm_qgis_transformer.py:111-131 | the shipped AGD66 zone 49 to GDA94 transform is named `AGD66 to GDA94` and has no target PROJ string |
| ShippedCatalog.OnePass20249 | icsm_qgis_transformer.py:111-117 | that transform, `AGD66 to GDA94`, goes from 20249 to 28349 through the AGD66 grid, with no target PROJ string |
| ShippedCatalog.OnePass20249Caveat | icsm_qgis_transformer.py:89-93 | its caveat names `A66_National_13_09_01.gsb` and carries that grid's comment |
| ShippedCatalog.Key28349 | icsm_qgis_transformer.py:201-205 | after one pass, `EPSG:28349` holds `283d -> 78`, then `283 -> 202`, then `283 -> 203`: the later row comes first |
| ShippedCatalog.OnePass28349 | icsm_qgis_transformer.py:201-205 | those three go from 28349 to 7849, 20249 and 20349 |
| ShippedCatalog.VariantZonedCodes | icsm_qgis_transformer.py:220-240 | the `283d` tag disappears from both code and key (`EPSG:28355`), and `78` in zone 49 is 7849 |
| Session.PyIndex | icsm_qgis_transformer.py:341 | Python indexing: defined exactly for `-len <= i < len`, counting negative indices from the end |
| Session.Validate | icsm_qgis_transformer.py:315-349 | the resolver never changes the file names, can raise only `IndexError`, and a changed selection is always shown in the summary text; a raise leaves the session as it was except that the offered transforms may already be cleared |
| Session.InitialSynced | icsm_qgis_transformer.py:187-194 | the starting session agrees with any catalog and has nothing selected |
| Session.ValidateKeepsSynced | icsm_qgis_transformer.py:315-349 | the resolver keeps the offered transforms a catalog entry, the selection one of them, and the picker their names |
| Session.ValidateNoRaise | icsm_qgis_transformer.py:323-341 | with no empty catalog entries and an index the picker can report, the resolver never raises |
| Session.ValidateSupported | icsm_qgis_transformer.py:323-330 | a supported CRS offers its whole entry, selects the first transform and lists one picker entry per transform |
| Session.ValidateUnsupported | icsm_qgis_transformer.py:331-335 | an unsupported CRS clears the file type and names the CRS in the text, but keeps the old transforms, selection and picker |
| Session.ValidatePicked | icsm_qgis_transformer.py:337-341 | choosing picker entry `i` selects the transform whose target name that entry shows |
| Session.ValidateEmptyEntryRaises | icsm_qgis_transformer.py:321-326 | a supported CRS with an empty entry raises `IndexError` after `TRANSFORMS` is already emptied, keeping the old selection, so a session with a selection is left out of step with the catalog |
| Session.ValidateOnlyMessage | icsm_qgis_transformer.py:315-345 | without an input, or without a CRS and a picker entry, the resolver completes and only the dialog text changes |
| Session.OpenInput | icsm_qgis_transformer.py:351-395 | a missing or unreadable file leaves no file type and an empty picker, and the file name is never changed; a raise leaves the file type set and the picker and offered transforms empty |
| Session.OpenInputKeepsSynced | icsm_qgis_transformer.py:351-395 | opening a file keeps the session in step with the catalog |
| Session.OpenInputNoRaise | icsm_qgis_transformer.py:351-395 | opening a file never raises when no catalog entry is empty |
| Session.OpenInputSupported | icsm_qgis_transformer.py:366-387 | a recognised file with a supported CRS selects that entry's first transform and records its type |
| Session.OpenInputUnsupported | icsm_qgis_transformer.py:355-372 | a recognised file with an unsupported CRS leaves no type, an empty picker and the old selection |
| Session.OpenInputBlankCrs | icsm_qgis_transformer.py:337-345 | a file whose CRS is blank is reported as unidentified, its new type is recorded, and the previous file's transforms and selection survive |
| Reproject.CatalogSourceCrs | icsm_qgis_transformer.py:424-430 | for a catalog transform, the source CRS comes from the source datum's template, formatted for the zone, exactly when the registry has a non-empty one, and otherwise from the zoned source code |
| Reproject.CatalogTargetCrs | icsm_qgis_transformer.py:489-493 | the target CRS of a catalog transform follows the same rule with the target datum |
| Reproject.RasterOutName | icsm_qgis_transformer.py:509-510 | the GeoTIFF name extends the given name |
| Reproject.RasterOutNameTif | icsm_qgis_transformer.py:509-510 | the GeoTIFF name always contains `.tif`, and equals the given name iff that already did |
| Reproject.RasterOutNameIdempotent | icsm_qgis_transformer.py:509-510 | applying the raster naming twice changes nothing more |
| Reproject.DefaultOutName | icsm_qgis_transformer.py:665-671 | the default name splits back into the input's stem plus `_transformed`, and `.shp` or `.tiff` |
| Reproject.DefaultRasterNameKept | icsm_qgis_transformer.py:671 | the raster writer keeps a default raster name unchanged |
| Reproject.VectorPlan | icsm_qgis_transformer.py:419-475 | the vector path assigns the source CRS first, then writes |
| Reproject.VectorWriteCount | icsm_qgis_transformer.py:436-460 | two shapefile writes iff there is a target PROJ string and the intermediate write succeeds, one otherwise |
| Reproject.VectorReachesOut | icsm_qgis_transformer.py:445-475 | something reaches the output file iff there is no target PROJ string or the intermediate write succeeded, and the run succeeds iff that write does |
| Reproject.VectorLastWrite | icsm_qgis_transformer.py:441-460 | the last write labels the output with the target code; with two writes the first goes to the temporary file in the target CRS and the second reads it back |
| Reproject.RasterSingleCopy | icsm_qgis_transformer.py:477-524 | the raster path warps from source to target CRS, then writes exactly one GeoTIFF whose name contains `.tif`, and succeeds iff the copy does |
| Driver.GridOps | icsm_qgis_transformer.py:647-656 | the grid step downloads the selected grid, once, exactly when the file is missing |
| Driver.OutputName | icsm_qgis_transformer.py:659-671 | the output is the dialog's name when non-empty, else a name splitting into the input's stem plus `_transformed` and the type's extension |
| Driver.Run | icsm_qgis_transformer.py:641-682 | `run` raises exactly when a selection has no grid (`TypeError`) or its missing grid's download raises; it never changes the offered transforms, the selection, the picker or the file type; a raise leaves everything but the dialog text as it was, and that text becomes the downloading notice when the download raised and stays as it was otherwise |
| Driver.RunDownloadRaises | icsm_qgis_transformer.py:649-656 | a missing grid whose download raises ends the run with that error, and the dialog keeps showing the downloading notice |
| Driver.RunNeedsSelection | icsm_qgis_transformer.py:641-645 | without a selection, `run` stops before any engine call and changes nothing |
| Driver.RunWithoutGridRaises | icsm_qgis_transformer.py:647-649 | a selection without a grid raises `TypeError` and leaves the session exactly as it was |
| Driver.RunFetchesMissingGrid | icsm_qgis_transformer.py:647-656 | with a grid, the run completes exactly when the grid step returns; the grid is then downloaded first, exactly when it is missing, and nothing else is downloaded |
| Driver.RunInvalidSettingsWritesNothing | icsm_qgis_transformer.py:659-681 | without a file type a completed run writes nothing, and the input name is still recorded |
| Driver.RunPlanned | icsm_qgis_transformer.py:659-678 | with a file type, a completed run performs the grid step, then that type's plan on the output name it records |
| Driver.GridOpsWriteNothing | icsm_qgis_transformer.py:649-656 | the grid download adds no write |
| Driver.RunVectorOutput | icsm_qgis_transformer.py:662-676 | a completed vector run past the intermediate write writes last to the dialog's name, or the default one, labelled with the target code |
| Driver.RasterRunName | icsm_qgis_transformer.py:663-678 | the GeoTIFF name is the dialog's name through the raster naming, or the default name unchanged |
| Driver.RunRasterOutput | icsm_qgis_transformer.py:662-678 | a completed raster run writes exactly one GeoTIFF, and finishes successfully iff the copy does |
| Plugin.PrepareTransformsNoEmptyLists | icsm_qgis_transformer.py:265-285 | building from rows that all have targets leaves no empty catalog entry |
| Plugin.PluginCatalog | icsm_qgis_transformer.py:545-548 | the constructor's catalog has the single-pass keys, each holding its single-pass list twice, and no empty entry |
| Plugin.SinglePassCatalog | icsm_qgis_transformer.py:265-285 | one pass over the shipped tables is well defined and leaves no empty entry |
| Plugin.PickerShowsTargets | icsm_qgis_transformer.py:329-330 | the picker entries for a row's list are, in target order, each target's registry name with its zoned code |
| Plugin.ShippedResolverNeverRaises | icsm_qgis_transformer.py:315-395 | against the plugin's catalog, built twice as written or once as intended, opening any file and choosing any picker entry never raise, and the session stays in step with the catalog |
| Plugin.Entry20249 | icsm_qgis_transformer.py:545-548 | the plugin's `EPSG:20249` entry is its one-pass entry, which has a single transform, written twice |
| Plugin.Open20249AsWritten | icsm_qgis_transformer.py:545-548 | as written, opening an AGD66 zone 49 file offers one transform twice, and the picker shows the same name twice |
| Plugin.OpenSingleAndRun | icsm_qgis_transformer.py:366-387 | a vector file whose CRS holds one transform with a grid and no target PROJ string selects it with a one-entry picker naming its target, and a completed run writes exactly one shapefile, the output, labelled with the target code |
| Plugin.Open20249AndRun | icsm_qgis_transformer.py:641-676 | with the catalog built once, opening an AGD66 zone 49 vector file offers exactly one transform, `AGD66 to GDA94` through the AGD66 grid, and the picker shows one entry, its target; for any engine, the run completes exactly when its grid step returns, and then writes one shapefile, the output, in EPSG:28349 |
| Plugin.OpenBlankThenRunStale | icsm_qgis_transformer.py:337-345 | after opening a file whose CRS is blank, the previous selection is still selected, and a run whose grid step returns performs the grid step and then the new file type's plan with that earlier transform |

## Left out

- The grid download (`update_local_file`) touches the network and the file system. It appears as a `FetchGrid` operation, and whether it raises is an `Engine` answer. Removing a too-short download and the log messages are not modelled.
- The QGIS, OGR and GDAL engines are not modelled. Whether the grid file exists, the temporary directory, and the result of each write or copy come in as an `Engine` parameter. The warp threshold 0.125, nearest-neighbour resampling, the layer registry and the "add to map" checkbox have no effect on the plan.
- Dialog widgets, signal wiring and re-entrancy are left out. Clearing or filling the picker fires `currentIndexChanged`, which calls the resolver again. The model treats each resolver call as one step, with the picker index as a parameter.
- What `update_infile` learns about a file (missing, unreadable, vector or raster, and its `authid()`) is a `Probe` parameter. The dataset handle it keeps is not modelled.
- `run` calls itself again at the end, to keep the dialog open. The model covers one pass.
- `get_dest_crs` and `get_source_proj_string` are unreachable: they index a `Transform` as if it had other fields. `get_epsg` has no callers in the core. `browse_infiles`, `browse_outfiles`, `help_pressed`, `initGui`, `unload`, `tr` and `log` are GUI plumbing and logging.
- `SUPPORTED_TRANSFORMS` is a class attribute, so every new plugin object adds its lists again. The model builds one plugin object.
- Messages pushed to the QGIS message bar are not modelled. The dialog text (`transform_text`) is.
- Reproject.VectorReachesOut: requires that the output name differs from the temporary file, which lives in a fresh directory made by `mkdtemp`.
- Driver.Run: `os.path.isfile` on a non-existent grid name is an `Engine` answer, not a file-system check, and every exception escaping the download is one `DownloadError`.
- Registry.ShippedWellFormed: a plugin directory whose path holds `{` or `}` is not modelled. The grid path is spliced into the PROJ templates, so `str.format` would raise `KeyError`, `IndexError` (for `{}` or `{0}`) or `ValueError`, or rewrite the path. The shipped tables are proved well formed only for directories without braces.

## Findings

| source | as written | input that shows it | evidently intended | confidence | as-written member | corrected member |
|---|---|---|---|---|---|---|
| icsm_qgis_transformer.py:545-548 | `__init__` calls `prepare_transforms` twice on the shared dictionary, and every list has the old list appended to it, so every entry holds its transforms twice | opening a file in EPSG:20249 (AGD66 / AMG zone 49) | the catalog is built once, so EPSG:20249 offers one transform (to GDA94 zone 49) and the picker shows one entry | high that the lists double; medium that this was unintended; not executed | Plugin.Open20249AsWritten | Plugin.Open20249AndRun |
