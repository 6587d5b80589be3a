# pvf_viz in Dafny

A model of the core of pvf_viz, a viewer for 3-D phase velocity fields (PVF) computed from
brain recordings, and of the small front-end and conversion tools around it. The model covers:

- **The two dataset servers.** `3dpvf_server.js` (Node/Express) and `3dpvf_server.py` (FastAPI)
  hold one subject's dataset in module-level state. Their request handlers are modelled as the
  methods of one class per server:
  - `/api/load-subjects-files` reloads the dataset or answers from the cache;
  - `/api/update-PVF-streamlines` slices another time window.

  Around them the model covers:
  - the sibling-path scheme `<stem>_metadata.json`, `<stem>_Vx.json`, and the rest;
  - the per-block tolerant reload, where each file's failure keeps the previous value;
  - the time-window slicing of the 4-D velocity volumes (`processPVFTimeWindow`,
    `process_pvf_time_window`);
  - the recentring of streamlines by the dimension shift;
  - the `condA` mean;
  - the background merge of every streamline file into the all-windows cache.
- **The front-end.**
  - `velocity-field-loader.js`: CSV parsing, and the combination of two basis vectors per
    vertex with the coefficients of each time step;
  - `velocity-field-visualizer.js`: arrows per non-negligible velocity, time-step clamping,
    and the frame-paced animation;
  - `brain-surface-viewer.js`: the reconstructed-surface file name, the `isLoading` guard, the
    three model slots and the vertex and face totals.
- **`convert_freesurfer_to_obj.py`.** It converts FreeSurfer `lh.pial` and `rh.pial` surfaces to
  OBJ text. The model proves the line layout, and that every face line reads back to the
  1-based indices it encodes.

JavaScript and Python values are modelled by one JSON value type (`JsValues.JsValue`). The errors
each language raises are modelled explicitly, as `JsError` (a `TypeError` on reading a property of
`undefined`) and `PyError` (`KeyError`, `IndexError`, `ValueError`, `ZeroDivisionError`, and so on).
The file system is a value parameter (`PvfFiles.Disk`), so every reload is a function of the disk
and the old state.

### Behaviour worth knowing

- **Out-of-range time index.** A time index is never checked against the time axis.
  - In JavaScript, reading past the time axis yields `undefined` cells
    (`TimeSliceJs.SliceOfVolume`).
  - In Python a negative index wraps, and only an index outside `[-T, T)` raises `IndexError`
    (`TimeSlicePy.TimeSlice`).
- **Missing or empty `condA` list.** Neither server turns a missing list into a mean of 0.
  - JavaScript gives 0 only for a value of length 0 (an empty list, an empty string, or an
    object whose `length` is 0). A missing key throws a `TypeError` inside `arr_average`.
  - Python raises `KeyError` for a missing key and `ZeroDivisionError` for an empty list
    (`PvfServerPy.AnswerEmptyCondA`).
- **Absent patterns entry.**
  - Only the Python dataset load defaults it: `.get(key, {})` at `3dpvf_server.py:310`.
  - The Python cached and update answers subscript and raise `KeyError` (`PvfServerPy.AnswerMissingPatterns`).
  - JavaScript sends `undefined`, so the field is dropped.
- **Which streamline cache answers.** There is no fallback from one cache to the other.
  - JavaScript's cached answer reads only the first-window cache. Its update answer reads only
    the all-windows cache. That cache is empty only before the first merge: it is never reset
    when a new dataset loads, so it keeps every earlier dataset's windows until a later merge
    overwrites the same keys.
  - Python always reads the all-windows cache, which the load seeds with a copy of the first window.
- **Dimension-shift overrides.**
  - Only JavaScript's override table has entries: `sub-003` gives `[25, 25, 20]` and `sub-005`
    gives `[25, 25, 17]`.
  - Python's table is empty: its entries are commented out.
- **Partial loads.** Each of the eight blocks of a load fails on its own and keeps the previous
  value, so a load can leave the globals mixing two datasets.
- **Update for a subject that is not loaded.**
  - JavaScript sends no response at all.
  - Python answers `{"message": "Subject or file mismatch"}`.
- **Background merge.** The merge never checks whether the dataset it was started for is still
  the loaded one; it always writes into the current all-windows cache. In JavaScript that cache
  also keeps the windows of earlier datasets, so an update answer for a new subject can carry
  another subject's window for a time point the new merge has not overwritten.
- **Number of time points.**
  - JavaScript takes it from the `Vx` shape.
  - Python first sets it from `len(times)`, then overwrites it with the `Vx` shape.

## Model

| member | source | states |
|---|---|---|
| ArrayShape.Shape | 3dpvf_server.js:153-160 | A non-array has no extents. An array has at least one extent, and the first is its length. |
| ArrayShape.ShapeOfRectangular | 3dpvf_server.js:153-160 | On a rectangular nest with no zero extent above the innermost level, the first-child probe returns exactly the nest's extents. |
| ArrayShape.ShapeOfVolume | 3dpvf_server.js:246-247 | For a rectangular 4-D volume, the probe gives the spatial sides and the time count at entries 0 and 3. |
| ArrayShape.ShapeEntry | 3dpvf_server.js:246-247 | Indexing the shape gives a number exactly when the index is within it, and then its extent; otherwise `undefined`. |
| ArrayShape.ArrAverage | 3dpvf_server.js:162-171 | The empty list averages to 0. Otherwise the average times the length is the sum. |
| ArrayShape.AverageWithinBounds | 3dpvf_server.js:162-171 | The average of a non-empty list lies between any lower and upper bound of its elements. |
| ArrayShape.FoldCubeIsSum | 3dpvf_server.js:174-178 | The nested reduce with an accumulator equals the accumulator plus the sum of the flattened cube. |
| ArrayShape.Sum3DMatrix | 3dpvf_server.js:173-179 | The result is the sum of every leaf, and 0 for an empty matrix. |
| JsValues.Index | 3dpvf_server.js:140-142 | Property access throws exactly on `undefined` and `null`. |
| JsValues.IndexNum | 3dpvf_server.js:140-142 | Numeric access throws exactly on `undefined` and `null`. |
| JsValues.IndexNumIsIndex | 3dpvf_server.js:140-142 | `a[n]` is `a[String(n)]`. |
| JsValues.IndexArray | 3dpvf_server.js:140-142 | On an array, index n gives element n when in range and `undefined` past the end. |
| PvfFiles.JsonFiles | 3dpvf_server.js:185-186 | A name is kept exactly when its entry is a file ending in `.json`. |
| PvfFiles.JsonPositions | 3dpvf_server.js:185-186 | The positions of the `.json` files are strictly increasing, each is a regular `.json` file, and every such position is among them. |
| PvfFiles.JsonFilesFrom | 3dpvf_server.js:185-186 | From any position on, the `k`-th kept name is the name at the `k`-th `.json` position. |
| PvfFiles.JsonFilesInOrder | 3dpvf_server.js:185-186 | The kept names are those of the `.json` files in listing order, one per file. |
| PvfFiles.JsPathsOfStem | 3dpvf_server.js:209-216 | When `_metadata.json` occurs only as the suffix, the six sibling paths are the stem plus each suffix. |
| PvfFiles.PyPathsOfStem | 3dpvf_server.py:211-219 | The same sibling paths are formed, and they equal the JavaScript server's, although Python replaces every occurrence. |
| PvfFiles.ReadablePrefix | 3dpvf_server.js:189-193 | The documents read are those of the listed files up to the first unreadable one. |
| PvfFiles.MergeAllKeys | 3dpvf_server.js:194-196 | A key is in the merged cache exactly when it was cached or occurs in some document read. |
| PvfFiles.MergeAllLastWins | 3dpvf_server.js:189-197 | A key takes its value from the last document that has it. |
| PvfFiles.MergeAllUntouched | 3dpvf_server.js:189-197 | A key in no document keeps its cached presence and value. |
| PvfFiles.MergeAllSnoc | 3dpvf_server.js:189-197 | Merging one more document is a map union with that document winning. |
| TimeSliceJs.ReadCells | 3dpvf_server.js:140-142 | Reading the three cells succeeds exactly when each access chain is defined, and yields those cells; otherwise it throws a TypeError. |
| TimeSliceJs.FillRows | 3dpvf_server.js:138-143 | A row of 50 succeeds exactly when all 50 cells are defined, and each entry is the one-element cell. |
| TimeSliceJs.FillPlanes | 3dpvf_server.js:132-144 | A 50-by-50 plane succeeds exactly when all its cells are defined. |
| TimeSliceJs.ProcessPVFTimeWindow | 3dpvf_server.js:119-151 | The slice succeeds exactly when every cell of the 50-cube is defined, and it is the cube of one-element cells; otherwise it throws a TypeError. |
| TimeSliceJs.FailedPlane | 3dpvf_server.js:127-145 | One undefined cell in any plane makes the whole slice fail. |
| TimeSliceJs.CellOfVolume | 3dpvf_server.js:140-142 | On a rectangular volume, a cell read yields the volume's element, which is `undefined` past the time axis. |
| TimeSliceJs.VolumesSliceDefined | 3dpvf_server.js:127-145 | Volumes of side at least 50 give a defined slice for every time index, in range or not. |
| TimeSliceJs.SliceOfVolume | 3dpvf_server.js:140-142 | Each slice cell is `[element at t]`, and `[undefined]` once t reaches the time count. |
| TimeSliceJs.AverageOf | 3dpvf_server.js:348 | `arr_average` of `undefined` or `null` throws. On an array of numbers it is their average. |
| TimeSlicePy.MaskedVoxelsMeaning | 3dpvf_server.py:144-149 | The masked voxels are exactly the in-range voxels the mask selects, in strict row-major order. |
| TimeSlicePy.MaskedVoxelsCount | 3dpvf_server.py:147-149 | There is one position per selected voxel. |
| TimeSlicePy.TimeSlice | 3dpvf_server.py:140-142 | A negative index wraps by the time count, and an index outside it raises IndexError. |
| TimeSlicePy.MaskCells | 3dpvf_server.py:139-149 | A boolean cube mask selects the masked voxels, and the initial empty list selects nothing. |
| TimeSlicePy.ShiftComponent | 3dpvf_server.py:152 | `dim_shift[i]` is the i-th number, and IndexError past the end. |
| TimeSlicePy.Shift | 3dpvf_server.py:152-153 | The shift exists exactly when `dim_shift` has at least three entries, and it is the first three. |
| TimeSlicePy.MakeFrame | 3dpvf_server.py:152-159 | Positions and directions are aligned per voxel: the shifted position times 5, and the three velocity components at the time index. |
| TimeSlicePy.ProcessPvfTimeWindow | 3dpvf_server.py:134-159 | A frame has as many positions as directions. |
| TimeSlicePy.ProcessPvfTimeWindowMeaning | 3dpvf_server.py:134-159 | For a boolean mask and rectangular volumes, both in range, the frame has one position and one direction per selected voxel. |
| TimeSlicePy.ProcessPvfTimeWindowSelects | 3dpvf_server.py:147-153 | Every position of a frame is the shifted place of a masked voxel. |
| TimeSlicePy.RecentreLineMeaning | 3dpvf_server.py:168-173 | Each point of a streamline becomes (p - shift) times 5. An empty streamline raises ValueError. |
| TimeSlicePy.RecentreAllMeaning | 3dpvf_server.py:167-173 | Success recentres every line in order. Failure is the first failing line's error. |
| TimeSlicePy.RecentreAllFailure | 3dpvf_server.py:167-173 | A failure in a prefix is the failure of the whole list. |
| TimeSlicePy.StreamlineList | 3dpvf_server.py:165-167 | Iterating a list yields its items. |
| TimeSlicePy.Streamlines | 3dpvf_server.py:165 | A time key missing from the cache raises KeyError. |
| TimeSlicePy.ProcessStreamlinesTimeWindow | 3dpvf_server.py:162-176 | The loop computes the recentred streamlines of the window, or the first error. |
| TimeSlicePy.StreamlinesMeaning | 3dpvf_server.py:162-176 | On success there is one recentred line per cached streamline, in order. |
| PyValues.Subscript | 3dpvf_server.py:327-328 | `d[key]` gives the value exactly when the key is present, and KeyError for a dict without it. |
| PyValues.GetOr | 3dpvf_server.py:310 | `d.get(key, default)` gives the value or the default. |
| PyValues.Len | 3dpvf_server.py:230-231 | `len` is defined on lists, strings and dicts, and on a list it is the item count. |
| PyValues.AsArray | 3dpvf_server.py:227 | `np.asarray` succeeds exactly on rectangular nests, keeping them with their shape; otherwise ValueError. |
| PyValues.RectangularOfShape | 3dpvf_server.py:249 | A nest of a non-degenerate shape converts unchanged. |
| PyValues.Mean | 3dpvf_server.py:327 | `sum(l) / len(l)` raises ZeroDivisionError on an empty list, and is the average on a list of numbers. |
| PyValues.MeanWithinBounds | 3dpvf_server.py:327 | The mean lies between the bounds of the elements. |
| PvfServerJs.DimShiftFor | 3dpvf_server.js:227-231 | An override subject takes its table entry. Any other subject takes the metadata's `dim_shift`. |
| PvfServerJs.MetadataOutcomeDimShift | 3dpvf_server.js:221-239 | A readable metadata file sets `sub-003` to [25,25,20], `sub-005` to [25,25,17], and others to the file's `dim_shift`. |
| PvfServerJs.VxOutcomeOfVolume | 3dpvf_server.js:242-255 | A rectangular `Vx` volume sets the dimension to its first extent and the time count to its fourth. |
| PvfServerJs.Entries | 3dpvf_server.js:194 | `Object.entries` throws a `TypeError` exactly on `null` and `undefined`. An object gives its fields, a number or a boolean gives no entries, and an array or a string gives its elements or characters under the keys `"0"`, `"1"`, …. |
| PvfServerJs.IndexEntries | 3dpvf_server.js:194 | The index entries of a sequence of length `n` have exactly `n` keys: the numeral of each index maps to the element there, and no other key occurs. |
| PvfServerJs.EntriesBelow | 3dpvf_server.js:194 | The same for the first `n` elements, built one index at a time; each new numeral is a fresh key. |
| PvfServerJs.Characters | 3dpvf_server.js:194 | A string's entries hold its characters as one-character strings, one per position. |
| PvfServerJs.Summarise | 3dpvf_server.js:348-350 | `condA`, patterns and streamlines succeed exactly when each lookup is defined. They are the average and the two lookups. |
| PvfServerJs.Server.constructor | 3dpvf_server.js:10-39 | The initial globals are empty, with dimension 50 and shift [25,25,25]. |
| PvfServerJs.Server.RespPVFJson | 3dpvf_server.js:337-354 | The cached answer succeeds exactly when the slice and the summary are defined. Its streamlines come from the first-window cache. |
| PvfServerJs.Server.UpdatePVFStreamlines | 3dpvf_server.js:356-368 | The update answer succeeds exactly when its parts are defined. Its streamlines come from the all-windows cache. |
| PvfServerJs.Server.ReadMetadata | 3dpvf_server.js:221-239 | The metadata is reloaded when readable, and the subject is reported as soon as it parses. The mask and the shift are set only when `volume_mask` can be read. |
| PvfServerJs.Server.ReadVx | 3dpvf_server.js:242-255 | `Vx` is reloaded when readable. A probed shape sets the dimension and the time count. |
| PvfServerJs.Server.SetIdentity | 3dpvf_server.js:208-216 | The subject, the metadata file name and the sibling paths are recorded. |
| PvfServerJs.Server.ReadRest | 3dpvf_server.js:258-315 | Each of `Vy`, `Vz`, `condA`, patterns and the first window is reloaded independently, or kept when unreadable. |
| PvfServerJs.Server.ReloadDataset | 3dpvf_server.js:221-315 | Every block is reloaded from the disk. The answer's optional fields are what the blocks produced. |
| PvfServerJs.Server.ReadPVFJson | 3dpvf_server.js:202-335 | The dataset is reloaded from the sibling paths, and the all-windows cache is untouched. The answer succeeds exactly when time 0 slices and summarises. |
| PvfServerJs.Server.ReadPaths | 3dpvf_server.js:217-334 | The same holds for explicit paths. |
| PvfServerJs.Server.TimeZeroBody | 3dpvf_server.js:317-328 | The time-0 answer succeeds exactly when the slice and summary are defined. It carries the blocks' optional fields. |
| PvfServerJs.Server.LoadStreamlinesAllTimeWindows | 3dpvf_server.js:181-199 | Without the folder nothing changes. Otherwise the `.json` files are merged in up to the first one that is missing, does not parse or parses to `null`, and it completes exactly when every file was merged. |
| PvfServerJs.MergeFiles | 3dpvf_server.js:189-197 | The loop merges the documents up to the first file that is missing, does not parse or parses to `null`; objects, arrays, strings, numbers and booleans are all merged. It completes exactly when every file was merged. |
| PvfServerJs.WriteEntries | 3dpvf_server.js:194-196 | Writing every entry of a document is a map union with the document winning. |
| PvfServerJs.Server.LoadSubjectsFiles | 3dpvf_server.js:58-72 | The active dataset answers from the cache with state unchanged. A new one is reloaded, answered with `readPVFJson`'s time-0 body, and then merged. Empty parameters give "No data found." |
| PvfServerJs.Server.LoadNewPair | 3dpvf_server.js:63-68 | A pair that is not the active one is reloaded. The answer is data exactly when time 0 slices and summarises, and then it is the time-0 body of the new globals. A read that throws skips the merge; an answered read is followed by the merge of the streamline folder. |
| PvfServerJs.Server.UpdatePVFStreamlinesRoute | 3dpvf_server.js:74-83 | An inactive subject gets no response. The active one gets the update answer or its error. |
| PvfServerPy.MetadataBlock | 3dpvf_server.py:224-243 | The block's results stop at the first failing step, in the source's statement order. |
| PvfServerPy.MetadataBlockComplete | 3dpvf_server.py:224-241 | Well-formed metadata yields the mask, the times, their count and the shift, the shift from the empty override table. |
| PvfServerPy.VxBlock | 3dpvf_server.py:246-257 | `Vx` is loaded when readable. Its dimension and time count come from a shape of rank at least four. |
| PvfServerPy.VxBlockOfVolume | 3dpvf_server.py:249-251 | A rectangular 4-D `Vx` gives its first and fourth extents. |
| PvfServerPy.ArrayBlock | 3dpvf_server.py:260-275 | `Vy` or `Vz` is loaded exactly when the file has the key and `np.asarray` accepts its value, so a ragged array is not loaded. The loaded value is the file's. |
| PvfServerPy.HeaderFor | 3dpvf_server.py:228-252 | The subject field is set exactly when the metadata block reaches it. The time count requires the times. |
| PvfServerPy.Summarise | 3dpvf_server.py:309-310 | The mean of `condA[key]` is taken, and patterns are either `[key]` or `.get(key, {})`. |
| PvfServerPy.WithHeader | 3dpvf_server.py:322-332 | The answer keeps the computed parts under the header, or their error. |
| PvfServerPy.AnswerEmptyCondA | 3dpvf_server.py:327 | An empty `condA` list makes the answer ZeroDivisionError. |
| PvfServerPy.AnswerMissingPatterns | 3dpvf_server.py:310 | A missing pattern key gives `{}` on the load path and KeyError on the cached path. |
| PvfServerPy.AnswerMissingStreamlines | 3dpvf_server.py:165 | A time key missing from the all-windows cache gives KeyError. |
| PvfServerPy.UpdateResponse | 3dpvf_server.py:338-351 | A ValueError becomes the "Invalid timepoint format" message. Other errors propagate. Success carries the times and the parts. |
| PvfServerPy.WriteAll | 3dpvf_server.py:196-197 | Writing every entry is a union with the new entries winning. |
| PvfServerPy.PyServer.constructor | 3dpvf_server.py:24-56 | The initial globals. |
| PvfServerPy.PyServer.RespPvfJson | 3dpvf_server.py:316-332 | The cached answer is the answer for `t` under the current header. |
| PvfServerPy.PyServer.ComputeParts | 3dpvf_server.py:320-328 | It computes the frame, the streamlines and the summary, or the first error. |
| PvfServerPy.PyServer.UpdatePvfStreamlinesData | 3dpvf_server.py:335-351 | A time point `int()` rejects gets the message. Otherwise the answer for the parsed index uses the raw string as the summary key. |
| PvfServerPy.PyServer.SetIdentity | 3dpvf_server.py:210-219 | The subject, the file name and the streamline folder are recorded. |
| PvfServerPy.PyServer.ReadMetadata | 3dpvf_server.py:224-243 | The metadata globals are set step by step up to the first failing statement. |
| PvfServerPy.PyServer.ReadVx | 3dpvf_server.py:246-257 | `Vx` and then its dimensions are set. |
| PvfServerPy.PyServer.ReadRest | 3dpvf_server.py:260-301 | `Vy`, `Vz`, `condA` and patterns are reloaded independently. The first window seeds the all-windows cache with a copy. |
| PvfServerPy.PyServer.ReloadDataset | 3dpvf_server.py:224-301 | All blocks are reloaded from the disk. |
| PvfServerPy.PyServer.ReadPvfJson | 3dpvf_server.py:202-313 | The dataset is reloaded from the sibling paths. The answer is time 0 with the `.get` pattern default under the fresh header. |
| PvfServerPy.PyServer.ReadPaths | 3dpvf_server.py:221-313 | The same holds for explicit paths. |
| PvfServerPy.PyServer.LoadStreamlinesAllTimeWindows | 3dpvf_server.py:180-199 | The readable prefix of the folder's `.json` files is merged into the cache. |
| PvfServerPy.PyServer.MergeFiles | 3dpvf_server.py:191-197 | The loop merges the documents up to the first file that is unreadable or not a dict. |
| PvfServerPy.PyServer.WriteEntries | 3dpvf_server.py:196-197 | The cache becomes its union with the document. |
| PvfServerPy.PyServer.LoadSubjectsFiles | 3dpvf_server.py:92-116 | The active dataset answers the cached time 0 with state unchanged. A new pair is handled as in LoadNewPair. Empty parameters give "No data found." |
| PvfServerPy.PyServer.LoadNewPair | 3dpvf_server.py:103-111 | Every re-read global is as the reload left it, and the answer is the time-0 body of those globals under the fresh header, or the error it raised. The all-windows cache is then merged from the streamline folder, after a body that did not raise. |
| PvfServerPy.PyServer.UpdatePvfStreamlines | 3dpvf_server.py:119-130 | A mismatch or an empty time point gives "Subject or file mismatch". Otherwise the update answer is given. |
| Strings.Split | wx/js/velocity-field-loader.js:80 | `split` always yields at least one piece, so `lines[0]` exists. |
| Strings.SplitPiecesFree | wx/js/velocity-field-loader.js:80 | No piece of a split contains the separator. |
| Strings.JoinSplit | wx/js/velocity-field-loader.js:80 | Joining the pieces of a split restores the string. |
| Strings.PadStart | wx/js/brain-surface-viewer.js:102 | The result is at least the target length, with the fill prepended. |
| Strings.ReplaceUniqueSuffix | 3dpvf_server.js:211-216 | Replacing a pattern that occurs only as the suffix swaps exactly that suffix, for both first and every occurrence. |
| Strings.ParseIntOfIntToString | 3dpvf_server.py:339 | `int(str(n))` is n. |
| Strings.ParseIntOfDigits | 3dpvf_server.py:339 | `int` of a decimal numeral is its value. |
| VelocityLoader.Lines | wx/js/velocity-field-loader.js:80 | Splitting the trimmed text yields at least one line. |
| VelocityLoader.CsvRowsMeaning | wx/js/velocity-field-loader.js:84-90 | The rows are the data lines with more than one field, in order, with the index column dropped. |
| VelocityLoader.HeaderOnly | wx/js/velocity-field-loader.js:80-92 | A one-line text has no data rows. |
| VelocityLoader.ParseRows | wx/js/velocity-field-loader.js:47-49 | Every field is converted and the shape is kept. |
| VelocityLoader.VelocityDefined | wx/js/velocity-field-loader.js:121-144 | A vertex's velocity is defined exactly when both its coefficients exist, and it is then the combination e0*a + e1*b. |
| VelocityLoader.VelocityFieldLoader.constructor | wx/js/velocity-field-loader.js:6-11 | Nothing is loaded. |
| VelocityLoader.VelocityFieldLoader.ParseCSV | wx/js/velocity-field-loader.js:79-93 | The rows are the kept data lines of the text. |
| VelocityLoader.VelocityFieldLoader.LoadE | wx/js/velocity-field-loader.js:14-38 | A fetched text installs its basis pairs. A failed fetch keeps the basis and reports false. |
| VelocityLoader.VelocityFieldLoader.LoadVk | wx/js/velocity-field-loader.js:41-57 | A fetched text installs its coefficient rows. |
| VelocityLoader.VelocityFieldLoader.LoadPotentials | wx/js/velocity-field-loader.js:60-76 | A fetched text installs its potential rows. |
| VelocityLoader.VelocityFieldLoader.ProcessVelocityField | wx/js/velocity-field-loader.js:96-147 | The result is null exactly when basis or coefficients are missing. Otherwise each step's velocities combine the basis with that step's row. |
| VelocityLoader.PairCoefficients | wx/js/velocity-field-loader.js:107-116 | Each step pairs coefficient i with coefficient i+n. |
| VelocityLoader.CombineStep | wx/js/velocity-field-loader.js:121-144 | One velocity per vertex, combined from the pairs. |
| VelocityVisualizer.FrameStartWithinInterval | wx/js/velocity-field-visualizer.js:207-209 | A due frame records a `lastTime` within one interval before `time`. |
| VelocityVisualizer.ArrowsForMeaning | wx/js/velocity-field-visualizer.js:64-101 | There is at most one arrow per velocity, each at its own vertex. With no negligible velocity there is exactly one per index. |
| VelocityVisualizer.DrawnIndices | wx/js/velocity-field-visualizer.js:64-77 | The drawn indices are increasing, each has a non-negligible velocity, and every non-negligible index below `n` is among them. |
| VelocityVisualizer.ArrowsInIndexOrder | wx/js/velocity-field-visualizer.js:64-101 | The `k`-th arrow is built from the `k`-th drawn index: every non-negligible velocity gets its arrow, in index order. |
| VelocityVisualizer.DrawArrows | wx/js/velocity-field-visualizer.js:64-101 | The loop draws those arrows and adds them to the scene. |
| VelocityVisualizer.AdvanceWraps | wx/js/velocity-field-visualizer.js:211 | The next step wraps from the last to 0 and stays in range. |
| VelocityVisualizer.VelocityFieldVisualizer.constructor | wx/js/velocity-field-visualizer.js:6-17 | No field, no arrows, step 0, size 1 and colour 0. |
| VelocityVisualizer.VelocityFieldVisualizer.SetVelocityField | wx/js/velocity-field-visualizer.js:20-24 | The field is installed and the step count is its length. |
| VelocityVisualizer.RemoveArrows | wx/js/velocity-field-visualizer.js:27-32 | The scene loses exactly the listed arrows, once each. |
| VelocityVisualizer.CreateArrowsOn | wx/js/velocity-field-visualizer.js:35-102 | Without a field or surface nothing changes. Otherwise the old arrows leave the scene and the arrows of the clamped step join it, or it throws, with the arrows cleared, when that step is not in the field. |
| VelocityVisualizer.VelocityFieldVisualizer.ClearArrows | wx/js/velocity-field-visualizer.js:27-32 | The arrows are removed from the scene. |
| VelocityVisualizer.VelocityFieldVisualizer.CreateArrows | wx/js/velocity-field-visualizer.js:35-102 | Nothing changes without a field or surface. Otherwise the old arrows are cleared and the clamped step is drawn, or it throws when that step is not in the field. |
| VelocityVisualizer.VelocityFieldVisualizer.SetTimeStep | wx/js/velocity-field-visualizer.js:178-181 | The step is clamped into range and then redrawn. |
| VelocityVisualizer.VelocityFieldVisualizer.SetArrowSize | wx/js/velocity-field-visualizer.js:184-187 | The size is set and redrawn. |
| VelocityVisualizer.VelocityFieldVisualizer.SetArrowColor | wx/js/velocity-field-visualizer.js:190-193 | The colour is set and redrawn. |
| VelocityVisualizer.VelocityFieldVisualizer.Play | wx/js/velocity-field-visualizer.js:196-223 | Playing again changes nothing. Otherwise it starts playing with `lastTime` 0 and a requested frame. |
| VelocityVisualizer.VelocityFieldVisualizer.AnimationFrame | wx/js/velocity-field-visualizer.js:204-220 | Each frame requests the next. A due frame advances the step and redraws. |
| VelocityVisualizer.VelocityFieldVisualizer.Advance | wx/js/velocity-field-visualizer.js:207-211 | A frame is due exactly after more than one interval. Then `lastTime` moves to the interval start and the step wraps. |
| VelocityVisualizer.VelocityFieldVisualizer.Stop | wx/js/velocity-field-visualizer.js:226-232 | Playing stops and a nonzero frame id is cancelled. |
| VelocityVisualizer.VelocityFieldVisualizer.Dispose | wx/js/velocity-field-visualizer.js:235-239 | The animation stops, the arrows are cleared and the field is dropped. |
| FreesurferToObj.ConvertSurface | convert_freesurfer_to_obj.py:7-38 | An unreadable surface re-raises. A readable one is written as header, counts, vertex lines and 1-based face lines. |
| FreesurferToObj.WriteLines | convert_freesurfer_to_obj.py:26-31 | The loop appends one rendered line per element, in order. |
| FreesurferToObj.ObjLayout | convert_freesurfer_to_obj.py:22-31 | There are 2 + V + F lines: line 0 is the header, line 1 the counts, then vertex i at 2+i and face j at 2+V+j. |
| FreesurferToObj.FaceLineReadsBack | convert_freesurfer_to_obj.py:30-31 | A face line splits into `f` and three numerals that parse back to the 1-based indices. |
| FreesurferToObj.VertexLineReadsBack | convert_freesurfer_to_obj.py:26-27 | A vertex line splits into `v` and the three coordinate texts. |
| FreesurferToObj.SplitJoin | convert_freesurfer_to_obj.py:27 | Separator-free words joined by the separator split back into the same words. |
| FreesurferToObj.ConvertHemisphere | convert_freesurfer_to_obj.py:54-57 | A missing file is reported and skipped. An unreadable one raises. A readable one is written to `<path>.obj`. |
| FreesurferToObj.ConvertSubjectData | convert_freesurfer_to_obj.py:40-66 | The left then the right hemisphere are converted, and a raise on the left one stops the run. |
| FreesurferToObj.PialPathsDiffer | convert_freesurfer_to_obj.py:51-61 | The two hemispheres never write the same file. |
| BrainViewer.ReconstructedFileNameOfNumber | wx/js/brain-surface-viewer.js:100-103 | `p` plus a one-character number gets a leading 0. Longer numbers are kept, so `p1` gives `01` and `p35` gives `35`. |
| BrainViewer.ReconstructedFileNameWithoutP | wx/js/brain-surface-viewer.js:101-102 | An identifier without `p` is only padded. |
| BrainViewer.ModelTotals | wx/js/brain-surface-viewer.js:263-272 | The totals are the sums over the three slots. An empty slot or a missing count adds 0. |
| BrainViewer.NoModelsTotals | wx/js/brain-surface-viewer.js:253-259 | Without models both totals are 0. |
| BrainViewer.SubjectModels | wx/js/brain-surface-viewer.js:114-180 | The reconstructed slot is always filled. A hemisphere slot is filled exactly when its box is ticked, with the loaded model or the mock. |
| BrainViewer.BrainSurfaceViewer.constructor | wx/js/brain-surface-viewer.js:12-18 | Three empty slots and no load running. |
| BrainViewer.BrainSurfaceViewer.UpdateStats | wx/js/brain-surface-viewer.js:263-276 | The loop shows the vertex and face totals of the present models. |
| BrainViewer.BrainSurfaceViewer.ClearModels | wx/js/brain-surface-viewer.js:246-260 | Every slot is emptied, and the totals shown drop to 0. |
| BrainViewer.BrainSurfaceViewer.LoadSubject | wx/js/brain-surface-viewer.js:88-195 | A running load is left alone. Otherwise the models are cleared and the file name and the slots set. The totals shown match, and `isLoading` ends false however the body ends. |
| BrainViewer.BrainSurfaceViewer.LoadCustomObjFile | wx/js/brain-surface-viewer.js:198-243 | The same guard applies. The file's model becomes the only one, and a rejected load leaves nothing. |

## Left out

- **File system reading and JSON parsing.**
  - Disk contents, JSON parsing and `fetch` are parameters: a `Disk` value, or an
    `Option<string>` text for `fetch`.
  - An unreadable or unparsable file is one that is absent from the disk map.
  - Text encodings are not modelled.
- **Subject listing and start-up.**
  - The subject and metadata listing routes (`3dpvf_server.js:48-56,101-117` and
    `3dpvf_server.py:63-89`) only list directories. They are transport and are not modelled.
  - Server start-up, CORS and `res.json` serialisation are not modelled either.
- **Console output.** Console and `print` output, including the `sum3DMatrix` log line, is not
  modelled.
- **Timing of the background merge.**
  - The background merge runs to completion at the point the route schedules it.
  - Interleaving with later requests and the async scheduling order are not modelled.
  - JavaScript's unhandled rejection on the first file that is missing, does not parse or
    parses to `null` is modelled as the merge stopping there.
- **Arithmetic.**
  - All arithmetic is on mathematical reals. IEEE rounding, NaN and infinities are not modelled.
  - `parseFloat` is a parameter.
  - A coefficient past the end of a row (`undefined`, so NaN in JavaScript) is a missing component.
- **NumPy beyond the cases the model covers.**
  - `np.squeeze` of degenerate sides, non-boolean masks and broadcasting are reported as
    `NotModelled`.
  - These are the cases beyond a boolean cube mask and rectangular 4-D volumes.
- **Python integer parsing.** `int()` accepts Unicode digits, and the model accepts only ASCII
  digits, signs, surrounding whitespace and single underscores between digits.
- **Path joining.** `path.join` and `os.path.join` normalisation of `..` and of doubled separators
  is not modelled. Paths are joined with one `/`.
- **Absent query parameters.** An absent query parameter is the empty string.
- **Coordinate fields.** JavaScript's `PVF_X`, `PVF_Y` and `PVF_Z` stay empty and are sent
  unchanged. Nothing in the core writes them.
- **Viewer scene.**
  - The THREE.js scene of the velocity-field visualizer is a multiset of arrows.
  - Camera fitting (`fitViewToModels`), mesh removal and materials are not modelled.
  - Of the page only the `file-name` text and the two totals are modelled. The
    `current-subject` text (`toUpperCase`) is not.
- **Mock surfaces.** The mock surfaces are parameters.
- **BrainViewer.BrainSurfaceViewer.LoadSubject: where an exception is thrown.** The model has one
  `throwsAfterClear` flag for an exception the outer `try` catches (a missing page element). The
  exact statement that throws is not modelled, so a throw leaves the file name as it was.
- **Converter file handling.**
  - The converter's failures to open or write the output file are not modelled, nor partially
    written files.
  - `mne.read_surface` is a parameter.
  - Python's `str(float)` for coordinates is a parameter `show`.
  - The `__main__` block, with its fixed directory and subject list, is not modelled.
- **Streamline cache type.** The Python all-windows cache is a dictionary after every successful
  load. A non-dictionary cache (only possible from a malformed first window) stops the merge
  without change.
- **VelocityVisualizer.NextStep: no steps.** With `totalSteps` 0, JavaScript computes NaN. The
  model keeps the step, so its behaviour there is weaker than JavaScript's NaN propagation.
- **VelocityVisualizer.VelocityFieldVisualizer.Stop: frame id 0.** Only a nonzero (truthy) frame
  id is cancelled, as in JavaScript. An id of 0 stays recorded.
- **PvfServerJs.Characters: UTF-16.** A string is split into Dafny characters (Unicode scalar
  values). JavaScript splits it into UTF-16 code units, so a character outside the Basic
  Multilingual Plane counts once here and twice there.
- **Python update keys.** The Python update summarises with the raw time-point string as the
  `condA` and patterns key, but looks streamlines up by `str(int(timepoint))`. The model keeps
  both keys as written.
- **First occurrence versus every occurrence.** JavaScript's `replace` changes the first
  occurrence and Python's changes every occurrence. The two agree when `_metadata.json` occurs
  only as the suffix (`PvfFiles.PyPathsOfStem`).
- **`main.js` and `brain-loader.js`.** They wire the page and parse PLY and OBJ geometry, and are
  not part of this model.
