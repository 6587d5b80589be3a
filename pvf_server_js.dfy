/** The active-dataset state of the JavaScript server (`3dpvf_server.js`):
    the module globals as the fields of one object, `readPVFJson`,
    `resp_PVFJson`, `updatePVFStreamlines`, the streamline merge of
    `loadStreamlinesAllTimeWindows`, and the decisions of the two route
    handlers that use them. */
module PvfServerJs {
  import opened Wrappers
  import opened Strings
  import opened JsValues
  import opened ArrayShape
  import opened PvfFiles
  import opened TimeSliceJs

  /** `temporary_map_dim_shifts`. */
  const DimShiftOverrides: map<string, JsValue> := map[
    "sub-003" := Arr([Num(25.0), Num(25.0), Num(20.0)]),
    "sub-005" := Arr([Num(25.0), Num(25.0), Num(17.0)])
  ]

  /** The initial `dim_shift`. */
  const DefaultDimShift: JsValue := Arr([Num(25.0), Num(25.0), Num(25.0)])

  /** The `dim_shift` a successfully parsed metadata document installs: the
      override of the subject when there is one, else the document's own. */
  function DimShiftFor(subject: string, metadata: JsValue): (r: JsValue)
    requires !metadata.Undefined? && !metadata.Null?
    ensures subject in DimShiftOverrides ==> r == DimShiftOverrides[subject]
    ensures subject !in DimShiftOverrides ==> Index(metadata, "dim_shift") == Success(r)
  {
    if subject in DimShiftOverrides then DimShiftOverrides[subject]
    else Index(metadata, "dim_shift").value
  }

  /** What the metadata block of `readPVFJson` gets through to: the mask and
      the new `dim_shift`, or nothing when the file does not parse or its
      document is `null` (reading `volume_mask` then throws). */
  function MetadataOutcome(subjectName: string, disk: Disk, path: string): Option<(JsValue, JsValue)> {
    if path in disk.files && Index(disk.files[path], "volume_mask").Success? then
      Some((Index(disk.files[path], "volume_mask").value, DimShiftFor(subjectName, disk.files[path])))
    else None
  }

  /** What the Vx block of `readPVFJson` gets through to: the dimension and
      the time count, elements 0 and 3 of the shape of the `Vx` array. */
  function VxOutcome(disk: Disk, path: string): Option<(JsValue, JsValue)> {
    if path in disk.files && Index(disk.files[path], "Vx").Success? then
      var shape := Shape(Index(disk.files[path], "Vx").value);
      Some((ShapeEntry(shape, 0), ShapeEntry(shape, 3)))
    else None
  }

  /** For a rectangular `[x][y][z][t]` volume in the Vx file the block installs
      the side length as the dimension and the number of time points as the
      time count. */
  lemma VxOutcomeOfVolume(disk: Disk, path: string, d0: nat, d1: nat, d2: nat, d3: nat)
    requires path in disk.files && disk.files[path].Obj? && "Vx" in disk.files[path].fields
    requires HasShape(disk.files[path].fields["Vx"], [d0, d1, d2, d3]) && d0 > 0 && d1 > 0 && d2 > 0
    ensures VxOutcome(disk, path) == Some((Num(d0 as real), Num(d3 as real)))
  {
    ShapeOfVolume(disk.files[path].fields["Vx"], d0, d1, d2, d3);
  }

  /** A metadata document that parses to an object installs the override of
      `sub-003` and `sub-005` whatever its own `dim_shift`, and its own
      `dim_shift` for every other subject. */
  lemma MetadataOutcomeDimShift(subjectName: string, disk: Disk, path: string)
    requires path in disk.files && disk.files[path].Obj?
    ensures MetadataOutcome(subjectName, disk, path).Some?
    ensures subjectName == "sub-003" ==> MetadataOutcome(subjectName, disk, path).value.1 == Arr([Num(25.0), Num(25.0), Num(20.0)])
    ensures subjectName == "sub-005" ==> MetadataOutcome(subjectName, disk, path).value.1 == Arr([Num(25.0), Num(25.0), Num(17.0)])
    ensures subjectName != "sub-003" && subjectName != "sub-005" ==>
              MetadataOutcome(subjectName, disk, path).value.1 == Get(disk.files[path].fields, "dim_shift")
  {
    assert subjectName in DimShiftOverrides <==> subjectName == "sub-003" || subjectName == "sub-005";
  }

  /** The index-keyed entries `Object.entries` gives for an array or a
      string: key `"i"` holds the `i`-th element. */
  function IndexEntries(xs: seq<JsValue>): (r: Doc)
    ensures |r| == |xs|
    ensures forall i: nat :: i < |xs| ==> NatToString(i) in r && r[NatToString(i)] == xs[i]
    ensures forall k :: k in r ==> IndexBelow(k, |xs|)
  {
    EntriesBelow(xs, |xs|)
  }

  /** The entries of the first `n` elements of `xs`. */
  function EntriesBelow(xs: seq<JsValue>, n: nat): (r: Doc)
    requires n <= |xs|
    ensures |r| == n
    ensures forall i: nat :: i < n ==> NatToString(i) in r && r[NatToString(i)] == xs[i]
    ensures forall k :: k in r ==> IndexBelow(k, n)
  {
    if n == 0 then map[]
    else
      var before := EntriesBelow(xs, n - 1);
      NumeralFresh(before, n - 1);
      EntriesStep(xs, n, before);
      before[NatToString(n - 1) := xs[n - 1]]
  }

  /** Adding the entry of index `n - 1` extends the entries below it. */
  lemma EntriesStep(xs: seq<JsValue>, n: nat, before: Doc)
    requires 0 < n <= |xs|
    requires forall i: nat :: i < n - 1 ==> NatToString(i) in before && before[NatToString(i)] == xs[i]
    requires forall k :: k in before ==> IndexBelow(k, n - 1)
    requires forall i: nat :: i < n - 1 ==> NatToString(i) != NatToString(n - 1)
    ensures forall i: nat :: i < n ==>
              NatToString(i) in before[NatToString(n - 1) := xs[n - 1]]
              && before[NatToString(n - 1) := xs[n - 1]][NatToString(i)] == xs[i]
    ensures forall k :: k in before[NatToString(n - 1) := xs[n - 1]] ==> IndexBelow(k, n)
  {
    forall k | k in before
      ensures IndexBelow(k, n)
    {
      var i: nat :| i < n - 1 && k == NatToString(i);
    }
  }

  /** `k` is the decimal numeral of an index below `n`. */
  ghost predicate IndexBelow(k: string, n: nat) {
    exists i: nat :: i < n && k == NatToString(i)
  }

  /** The numeral of `n` differs from those of smaller indices, so it is not
      a key of a map keyed by them. */
  lemma NumeralFresh(m: Doc, n: nat)
    requires forall k :: k in m ==> IndexBelow(k, n)
    ensures forall i: nat :: i < n ==> NatToString(i) != NatToString(n)
    ensures NatToString(n) !in m
  {
    NatToStringInjective();
  }

  /** The characters of a string, each as a one-character string value. */
  function Characters(s: string): (r: seq<JsValue>)
    ensures |r| == |s|
    ensures forall i :: 0 <= i < |s| ==> r[i] == Text([s[i]])
  {
    seq(|s|, i requires 0 <= i < |s| => Text([s[i]]))
  }

  /** `Object.entries` of a parsed streamline file, as a key map. */
  function Entries(v: JsValue): (r: Result<Doc, JsError>)
    ensures r.Failure? <==> v.Undefined? || v.Null?
    ensures r.Failure? ==> r.error == TypeError
    ensures v.Obj? ==> r == Success(v.fields)
    ensures v.Bool? || v.Num? ==> r == Success(map[])
    ensures v.Arr? ==> r == Success(IndexEntries(v.items))
    ensures v.Text? ==> r == Success(IndexEntries(Characters(v.s)))
  {
    match v
    case Obj(m) => Success(m)
    case Undefined => Failure(TypeError)
    case Null => Failure(TypeError)
    case Arr(xs) => Success(IndexEntries(xs))
    case Text(t) => Success(IndexEntries(Characters(t)))
    case _ => Success(map[])
  }

  /** The streamline files the merge loop can read, by path: every parsed
      file except `null`, on whose entries the loop throws. */
  function StreamlineDocs(disk: Disk): map<string, Doc> {
    map p | p in disk.files && Entries(disk.files[p]).Success? :: Entries(disk.files[p]).value
  }

  /** Reading, parsing and taking the entries of one streamline file; `None`
      where the loop stops. */
  function FileEntries(disk: Disk, path: string): (r: Option<Doc>)
    ensures r.Some? <==> path in StreamlineDocs(disk)
    ensures r.Some? ==> r.value == StreamlineDocs(disk)[path]
  {
    if path in disk.files && Entries(disk.files[path]).Success? then Some(Entries(disk.files[path]).value) else None
  }

  /** The merge loop over the listed `.json` names of `folder`: each document
      in turn has its entries written into the cache, and the first file that
      is missing, does not parse or parses to `null` ends the loop.
      `completed` exists only for the contract. */
  method MergeFiles(cache: Doc, folder: string, names: seq<string>, disk: Disk) returns (merged: Doc, completed: bool)
    ensures var docs := ReadablePrefix(folder, names, StreamlineDocs(disk));
            && merged == MergeAll(cache, docs)
            && (completed <==> |docs| == |names|)
  {
    ghost var files := StreamlineDocs(disk);
    merged := cache;
    var n := 0;
    while n < |names|
      invariant n <= |ReadablePrefix(folder, names, files)|
      invariant merged == MergeAll(cache, ReadablePrefix(folder, names, files)[..n])
    {
      var path := PathJoin(folder, names[n]);
      var read := FileEntries(disk, path);
      if read.None? {
        PrefixEnd(folder, names, files, n);
        return merged, false;
      }
      PrefixNext(folder, names, files, n);
      MergeNext(cache, ReadablePrefix(folder, names, files), n);
      merged := WriteEntries(merged, read.value);
      n := n + 1;
    }
    PrefixEnd(folder, names, files, n);
    completed := true;
  }

  /** `for (const [timepoint, streamlines] of Object.entries(doc))
      cache[timepoint] = streamlines`: one entry at a time, in any order,
      since the keys are distinct. */
  method WriteEntries(cache: Doc, m: Doc) returns (written: Doc)
    ensures written == cache + m
  {
    written := cache;
    var keys := m.Keys;
    ghost var done: Doc := map[];
    while keys != {}
      invariant keys <= m.Keys && done.Keys == m.Keys - keys
      invariant forall k :: k in done ==> done[k] == m[k]
      invariant written == cache + done
      decreases |keys|
    {
      var key :| key in keys;
      written := written[key := m[key]];
      done := done[key := m[key]];
      keys := keys - {key};
    }
    assert done == m;
  }

  /** The part of a response computed after the slice: the mean condition
      number, the patterns and the streamlines of one time key. */
  datatype Summary = Summary(condA: real, patterns: JsValue, streamlines: JsValue)

  /** `arr_average(condA[t])`, `patterns[t]`, `windows[t]`, in that order;
      any step may throw. */
  function Summarise(condAData: JsValue, patternData: JsValue, windows: JsValue, tkey: string): (r: Result<Summary, JsError>)
    ensures r.Success? <==> Index(condAData, tkey).Success? && AverageOf(Index(condAData, tkey).value).Success?
                            && Index(patternData, tkey).Success? && Index(windows, tkey).Success?
    ensures r.Success? ==> r.value.condA == AverageOf(Index(condAData, tkey).value).value
                           && r.value.patterns == Index(patternData, tkey).value
                           && r.value.streamlines == Index(windows, tkey).value
  {
    var values :- Index(condAData, tkey);
    var condA :- AverageOf(values);
    var patterns :- Index(patternData, tkey);
    var streamlines :- Index(windows, tkey);
    Success(Summary(condA, patterns, streamlines))
  }

  /** The JSON body of a data response. The optional parts are keys the
      handler may leave unset; `X`, `Y`, `Z` are always empty and left out. */
  datatype Payload = Payload(
    subjectId: Option<string>,
    volumeMask: Option<JsValue>,
    dimension: Option<JsValue>,
    numTimePoints: Option<JsValue>,
    frame: Frame,
    summary: Summary)

  /** What a route handler does with the request: send a JSON body, send a
      message, throw out of the handler (no body is sent), or send nothing. */
  datatype Response = Data(payload: Payload) | Message(text: string) | Thrown(error: JsError) | NoResponse

  /** The documents `readPVFJson` re-reads and the values derived from them. */
  datatype Documents = Documents(
    metadata: JsValue, dimShift: JsValue, vxDoc: JsValue, dimension: JsValue, numTimePoints: JsValue,
    vyDoc: JsValue, vzDoc: JsValue, condAData: JsValue, patternData: JsValue, streamlinesTimeWindows: JsValue)

  /** The documents after the `try` blocks of `readPVFJson`: each re-read when
      its file parses and kept from `before` otherwise, and the shift, the
      dimension and the time count as the metadata and Vx blocks report them. */
  function ReloadDocuments(before: Documents, subjectName: string, paths: DatasetPaths, disk: Disk): Documents {
    var meta := MetadataOutcome(subjectName, disk, paths.metadata);
    var dims := VxOutcome(disk, paths.vx);
    Documents(
      Reload(before.metadata, disk, paths.metadata),
      if meta.Some? then meta.value.1 else before.dimShift,
      Reload(before.vxDoc, disk, paths.vx),
      if dims.Some? then dims.value.0 else before.dimension,
      if dims.Some? then dims.value.1 else before.numTimePoints,
      Reload(before.vyDoc, disk, paths.vy),
      Reload(before.vzDoc, disk, paths.vz),
      Reload(before.condAData, disk, paths.condA),
      Reload(before.patternData, disk, paths.pattern),
      Reload(before.streamlinesTimeWindows, disk, PathJoin(paths.streamlines, FirstWindowFile)))
  }

  class Server {
    const subjectsDir: string

    var subjectId: string
    var metadataFname: string
    var metadata: JsValue
    var numTimePoints: JsValue
    var dimension: JsValue
    var vxDoc: JsValue
    var vyDoc: JsValue
    var vzDoc: JsValue
    var dimShift: JsValue
    var condAFname: string
    var condAData: JsValue
    var patternFname: string
    var patternData: JsValue
    var streamlineFolder: string
    /** `PVF_streamlines_timeWindows`: the first time-window file only. */
    var streamlinesTimeWindows: JsValue
    /** `PVF_streamline_allTimeWindows`: filled by the merge, never cleared. */
    var streamlineAllTimeWindows: Doc

    /** The globals as the module initialises them. */
    constructor (subjectsDir: string)
      ensures this.subjectsDir == subjectsDir
      ensures subjectId == "" && metadataFname == "" && metadata == Obj(map[])
      ensures numTimePoints == Num(0.0) && dimension == Num(50.0)
      ensures vxDoc == Obj(map[]) && vyDoc == Obj(map[]) && vzDoc == Obj(map[])
      ensures dimShift == DefaultDimShift
      ensures condAFname == "" && condAData == Obj(map[]) && patternFname == "" && patternData == Obj(map[])
      ensures streamlineFolder == "" && streamlinesTimeWindows == Obj(map[]) && streamlineAllTimeWindows == map[]
    {
      this.subjectsDir := subjectsDir;
      subjectId, metadataFname, metadata := "", "", Obj(map[]);
      numTimePoints, dimension := Num(0.0), Num(50.0);
      vxDoc, vyDoc, vzDoc := Obj(map[]), Obj(map[]), Obj(map[]);
      dimShift := DefaultDimShift;
      condAFname, condAData, patternFname, patternData := "", Obj(map[]), "", Obj(map[]);
      streamlineFolder, streamlinesTimeWindows, streamlineAllTimeWindows := "", Obj(map[]), map[];
    }

    /** `path.join(subjectsDir, subjectName, fileName)`. */
    function MetadataPath(subjectName: string, fileName: string): string {
      PathJoin(PathJoin(subjectsDir, subjectName), fileName)
    }

    /** The loaded pair is the one asked for. */
    predicate IsActive(subject: string, file: string)
      reads this
    {
      subjectId == subject && metadataFname == file
    }

    // -------------------------------------------------------------------------
    // Responses

    /** `resp_PVFJson(t)` completes without throwing. */
    predicate RespDefined(tkey: string)
      reads this
    {
      SliceDefined(vxDoc, vyDoc, vzDoc, tkey)
      && Index(metadata, "volume_mask").Success?
      && Summarise(condAData, patternData, streamlinesTimeWindows, tkey).Success?
    }

    /** The body `resp_PVFJson(t)` builds: the active identity and mask, the
        slice of time `t`, and the streamlines of the FIRST-WINDOW cache. */
    predicate IsRespPayload(p: Payload, tkey: string)
      reads this
    {
      IsSlice(p.frame.vx, vxDoc, "Vx", tkey) && IsSlice(p.frame.vy, vyDoc, "Vy", tkey) && IsSlice(p.frame.vz, vzDoc, "Vz", tkey)
      && p.subjectId == Some(subjectId)
      && Index(metadata, "volume_mask").Success? && p.volumeMask == Some(Index(metadata, "volume_mask").value)
      && p.dimension == Some(dimension) && p.numTimePoints == Some(numTimePoints)
      && Summarise(condAData, patternData, streamlinesTimeWindows, tkey) == Success(p.summary)
    }

    /** `updatePVFStreamlines(t)` completes without throwing. */
    predicate UpdateDefined(tkey: string)
      reads this
    {
      SliceDefined(vxDoc, vyDoc, vzDoc, tkey)
      && Summarise(condAData, patternData, Obj(streamlineAllTimeWindows), tkey).Success?
    }

    /** The body `updatePVFStreamlines(t)` builds: only the slice and the
        summary, with the streamlines of the ALL-WINDOWS cache. */
    predicate IsUpdatePayload(p: Payload, tkey: string)
      reads this
    {
      IsSlice(p.frame.vx, vxDoc, "Vx", tkey) && IsSlice(p.frame.vy, vyDoc, "Vy", tkey) && IsSlice(p.frame.vz, vzDoc, "Vz", tkey)
      && p.subjectId.None? && p.volumeMask.None? && p.dimension.None? && p.numTimePoints.None?
      && Summarise(condAData, patternData, Obj(streamlineAllTimeWindows), tkey) == Success(p.summary)
    }

    /** `resp_PVFJson(t)`. */
    method RespPVFJson(tkey: string) returns (r: Result<Payload, JsError>)
      ensures r.Success? <==> RespDefined(tkey)
      ensures r.Success? ==> IsRespPayload(r.value, tkey)
      ensures r.Success? ==> r.value.summary.streamlines == Index(streamlinesTimeWindows, tkey).value
    {
      var frame :- ProcessPVFTimeWindow(vxDoc, vyDoc, vzDoc, tkey);
      var mask :- Index(metadata, "volume_mask");
      var summary :- Summarise(condAData, patternData, streamlinesTimeWindows, tkey);
      r := Success(Payload(Some(subjectId), Some(mask), Some(dimension), Some(numTimePoints), frame, summary));
    }

    /** `updatePVFStreamlines(t)`: the all-windows cache answers every key,
        `undefined` for one the merge has not (yet) seen. */
    method UpdatePVFStreamlines(tkey: string) returns (r: Result<Payload, JsError>)
      ensures r.Success? <==> UpdateDefined(tkey)
      ensures r.Success? ==> IsUpdatePayload(r.value, tkey)
      ensures r.Success? ==> r.value.summary.streamlines == Get(streamlineAllTimeWindows, tkey)
    {
      var frame :- ProcessPVFTimeWindow(vxDoc, vyDoc, vzDoc, tkey);
      var summary :- Summarise(condAData, patternData, Obj(streamlineAllTimeWindows), tkey);
      r := Success(Payload(None, None, None, None, frame, summary));
    }

    // -------------------------------------------------------------------------
    // readPVFJson

    /** The metadata `try` block: the document is installed when it parses,
        and the subject is reported then; reading `volume_mask` throws on a
        `null` document, which skips the mask and the `dim_shift` update. */
    method ReadMetadata(subjectName: string, path: string, disk: Disk)
      returns (subject: Option<string>, mask: Option<JsValue>)
      modifies this`metadata, this`dimShift
      ensures metadata == Reload(old(metadata), disk, path)
      ensures subject == (if path in disk.files then Some(subjectName) else None)
      ensures var out := MetadataOutcome(subjectName, disk, path);
              && mask == (if out.Some? then Some(out.value.0) else None)
              && dimShift == (if out.Some? then out.value.1 else old(dimShift))
    {
      subject, mask := None, None;
      if path in disk.files {
        metadata := disk.files[path];
        subject := Some(subjectName);
        var m := Index(metadata, "volume_mask");
        if m.Success? {
          mask := Some(m.value);
          dimShift := DimShiftFor(subjectName, metadata);
        }
      }
    }

    /** The Vx `try` block: the document is installed when it parses; the
        time count and the dimension are then taken from the shape of its `Vx`
        array, unless reading `Vx` throws on a `null` document. */
    method ReadVx(path: string, disk: Disk) returns (dims: Option<(JsValue, JsValue)>)
      modifies this`vxDoc, this`numTimePoints, this`dimension
      ensures vxDoc == Reload(old(vxDoc), disk, path)
      ensures dims == VxOutcome(disk, path)
      ensures dimension == (if dims.Some? then dims.value.0 else old(dimension))
      ensures numTimePoints == (if dims.Some? then dims.value.1 else old(numTimePoints))
    {
      dims := None;
      if path in disk.files {
        vxDoc := disk.files[path];
        var vx := Index(vxDoc, "Vx");
        if vx.Success? {
          numTimePoints := ShapeEntry(Shape(vx.value), 3);
          dimension := ShapeEntry(Shape(vx.value), 0);
          dims := Some((dimension, numTimePoints));
        }
      }
    }

    /** The globals naming the dataset, as `readPVFJson` assigns them first. */
    predicate IdentitySet(subjectName: string, fileName: string, paths: DatasetPaths)
      reads this`subjectId, this`metadataFname, this`condAFname, this`patternFname, this`streamlineFolder
    {
      && subjectId == subjectName && metadataFname == fileName
      && condAFname == paths.condA && patternFname == paths.pattern && streamlineFolder == paths.streamlines
    }

    method SetIdentity(subjectName: string, fileName: string, paths: DatasetPaths)
      modifies this`subjectId, this`metadataFname, this`condAFname, this`patternFname, this`streamlineFolder
      ensures IdentitySet(subjectName, fileName, paths)
    {
      subjectId, metadataFname := subjectName, fileName;
      condAFname, patternFname, streamlineFolder := paths.condA, paths.pattern, paths.streamlines;
    }

    /** Everything `readPVFJson` leaves in the globals, apart from the
        all-windows cache: the new identity and derived paths, and each
        document re-read when its file parses and kept from the previous
        dataset when it does not. */
    twostate predicate Reloaded(subjectName: string, fileName: string, paths: DatasetPaths, disk: Disk)
      reads this`subjectId, this`metadataFname, this`condAFname, this`patternFname, this`streamlineFolder,
            this`metadata, this`dimShift, this`vxDoc, this`dimension, this`numTimePoints, this`vyDoc, this`vzDoc, this`condAData, this`patternData, this`streamlinesTimeWindows
    {
      && IdentitySet(subjectName, fileName, paths)
      && DocumentsReloaded(subjectName, paths, disk)
    }

    /** The documents and the values derived from them. */
    function Docs(): Documents
      reads this`metadata, this`dimShift, this`vxDoc, this`dimension, this`numTimePoints, this`vyDoc, this`vzDoc, this`condAData, this`patternData, this`streamlinesTimeWindows
    {
      Documents(metadata, dimShift, vxDoc, dimension, numTimePoints, vyDoc, vzDoc, condAData, patternData, streamlinesTimeWindows)
    }

    /** The documents and the values derived from them, after the `try`
        blocks. */
    twostate predicate DocumentsReloaded(subjectName: string, paths: DatasetPaths, disk: Disk)
      reads this`metadata, this`dimShift, this`vxDoc, this`dimension, this`numTimePoints, this`vyDoc, this`vzDoc, this`condAData, this`patternData, this`streamlinesTimeWindows
    {
      Docs() == ReloadDocuments(old(Docs()), subjectName, paths, disk)
    }

    /** The `try` blocks after Vx: each document is installed when its file
        parses and kept otherwise. */
    method ReadRest(paths: DatasetPaths, disk: Disk)
      modifies this`vyDoc, this`vzDoc, this`condAData, this`patternData, this`streamlinesTimeWindows
      ensures vyDoc == Reload(old(vyDoc), disk, paths.vy)
      ensures vzDoc == Reload(old(vzDoc), disk, paths.vz)
      ensures condAData == Reload(old(condAData), disk, paths.condA)
      ensures patternData == Reload(old(patternData), disk, paths.pattern)
      ensures streamlinesTimeWindows == Reload(old(streamlinesTimeWindows), disk, PathJoin(paths.streamlines, FirstWindowFile))
    {
      vyDoc := Reload(vyDoc, disk, paths.vy);
      vzDoc := Reload(vzDoc, disk, paths.vz);
      condAData := Reload(condAData, disk, paths.condA);
      patternData := Reload(patternData, disk, paths.pattern);
      streamlinesTimeWindows := Reload(streamlinesTimeWindows, disk, PathJoin(paths.streamlines, FirstWindowFile));
    }

    /** All the `try` blocks of `readPVFJson`, in order, after the identity
        and the derived paths are assigned; what they report for the body is
        returned. */
    method ReloadDataset(subjectName: string, paths: DatasetPaths, disk: Disk)
      returns (subject: Option<string>, mask: Option<JsValue>, dims: Option<(JsValue, JsValue)>)
      modifies this`metadata, this`dimShift, this`vxDoc, this`numTimePoints, this`dimension,
               this`vyDoc, this`vzDoc, this`condAData, this`patternData, this`streamlinesTimeWindows
      ensures DocumentsReloaded(subjectName, paths, disk)
      ensures subject == (if paths.metadata in disk.files then Some(subjectName) else None)
      ensures var meta := MetadataOutcome(subjectName, disk, paths.metadata);
              mask == (if meta.Some? then Some(meta.value.0) else None)
      ensures dims == VxOutcome(disk, paths.vx)
    {
      subject, mask := ReadMetadata(subjectName, paths.metadata, disk);
      dims := ReadVx(paths.vx, disk);
      ReadRest(paths, disk);
    }

    /** `readPVFJson(subjectsDir, subjectName, fileName)`: re-reads the
        dataset into the globals, then answers the time-0 body. The parts of
        the body only some blocks set are present exactly when those blocks
        got that far. */
    method ReadPVFJson(subjectName: string, fileName: string, disk: Disk) returns (r: Result<Payload, JsError>)
      modifies this`subjectId, this`metadataFname, this`condAFname, this`patternFname, this`streamlineFolder,
               this`metadata, this`dimShift, this`vxDoc, this`numTimePoints, this`dimension,
               this`vyDoc, this`vzDoc, this`condAData, this`patternData, this`streamlinesTimeWindows
      ensures Reloaded(subjectName, fileName, JsPaths(MetadataPath(subjectName, fileName)), disk)
      ensures streamlineAllTimeWindows == old(streamlineAllTimeWindows)
      ensures r.Success? <==> SliceDefined(vxDoc, vyDoc, vzDoc, "0")
                              && Summarise(condAData, patternData, streamlinesTimeWindows, "0").Success?
      ensures r.Success? ==> ReadPayload(r.value, subjectName, JsPaths(MetadataPath(subjectName, fileName)), disk)
    {
      r := ReadPaths(subjectName, fileName, JsPaths(MetadataPath(subjectName, fileName)), disk);
    }

    /** The body of `readPVFJson` once the paths are derived. */
    method ReadPaths(subjectName: string, fileName: string, paths: DatasetPaths, disk: Disk) returns (r: Result<Payload, JsError>)
      modifies this`subjectId, this`metadataFname, this`condAFname, this`patternFname, this`streamlineFolder,
               this`metadata, this`dimShift, this`vxDoc, this`numTimePoints, this`dimension,
               this`vyDoc, this`vzDoc, this`condAData, this`patternData, this`streamlinesTimeWindows
      ensures Reloaded(subjectName, fileName, paths, disk)
      ensures streamlineAllTimeWindows == old(streamlineAllTimeWindows)
      ensures r.Success? <==> SliceDefined(vxDoc, vyDoc, vzDoc, "0")
                              && Summarise(condAData, patternData, streamlinesTimeWindows, "0").Success?
      ensures r.Success? ==> ReadPayload(r.value, subjectName, paths, disk)
    {
      SetIdentity(subjectName, fileName, paths);
      var subject, mask, dims := ReloadDataset(subjectName, paths, disk);
      r := TimeZeroBody(subject, mask, dims);
    }

    /** The response of `readPVFJson` from the reloaded globals: the time-0
        slice and summary, with what the `try` blocks reported. */
    method TimeZeroBody(subject: Option<string>, mask: Option<JsValue>, dims: Option<(JsValue, JsValue)>)
      returns (r: Result<Payload, JsError>)
      ensures r.Success? <==> SliceDefined(vxDoc, vyDoc, vzDoc, "0")
                              && Summarise(condAData, patternData, streamlinesTimeWindows, "0").Success?
      ensures r.Success? ==> BodyOf(r.value, subject, mask, dims)
    {
      var frame :- ProcessPVFTimeWindow(vxDoc, vyDoc, vzDoc, "0");
      var summary :- Summarise(condAData, patternData, streamlinesTimeWindows, "0");
      var dimension, times := None, None;
      if dims.Some? {
        dimension, times := Some(dims.value.0), Some(dims.value.1);
      }
      r := Success(Payload(subject, mask, dimension, times, frame, summary));
    }

    /** A time-0 body built from the current globals and what the `try`
        blocks reported. */
    predicate BodyOf(p: Payload, subject: Option<string>, mask: Option<JsValue>, dims: Option<(JsValue, JsValue)>)
      reads this`vxDoc, this`vyDoc, this`vzDoc, this`condAData, this`patternData, this`streamlinesTimeWindows
    {
      && IsSlice(p.frame.vx, vxDoc, "Vx", "0") && IsSlice(p.frame.vy, vyDoc, "Vy", "0") && IsSlice(p.frame.vz, vzDoc, "Vz", "0")
      && Summarise(condAData, patternData, streamlinesTimeWindows, "0") == Success(p.summary)
      && p.subjectId == subject && p.volumeMask == mask
      && p.dimension == (if dims.Some? then Some(dims.value.0) else None)
      && p.numTimePoints == (if dims.Some? then Some(dims.value.1) else None)
    }

    /** The time-0 body `readPVFJson` returns: the slice and summary of the
        new globals, with the subject, the mask and the two shape numbers
        present exactly when their blocks got that far. */
    predicate ReadPayload(p: Payload, subjectName: string, paths: DatasetPaths, disk: Disk)
      reads this`vxDoc, this`vyDoc, this`vzDoc, this`condAData, this`patternData, this`streamlinesTimeWindows
    {
      var meta := MetadataOutcome(subjectName, disk, paths.metadata);
      BodyOf(p, if paths.metadata in disk.files then Some(subjectName) else None,
             if meta.Some? then Some(meta.value.0) else None, VxOutcome(disk, paths.vx))
    }

    // -------------------------------------------------------------------------
    // loadStreamlinesAllTimeWindows

    /** The merge loop: every `.json` file of the streamline folder, in
        listing order, has every entry written into the all-windows cache. A
        missing folder rejects before the loop. A file that cannot be read,
        does not parse or parses to `null` ends the loop, keeping what earlier
        files wrote; an array or a string adds its index keys and the loop
        goes on.
        `completed` tells whether every file was merged; `loadStreamlinesAllTimeWindows`
        itself returns nothing, and the flag exists only for the contract. */
    method LoadStreamlinesAllTimeWindows(disk: Disk) returns (completed: bool)
      modifies this`streamlineAllTimeWindows
      ensures streamlineFolder !in disk.dirs ==> streamlineAllTimeWindows == old(streamlineAllTimeWindows) && !completed
      ensures streamlineFolder in disk.dirs ==>
                var names := JsonFiles(disk.dirs[streamlineFolder]);
                var docs := ReadablePrefix(streamlineFolder, names, StreamlineDocs(disk));
                && streamlineAllTimeWindows == MergeAll(old(streamlineAllTimeWindows), docs)
                && (completed <==> |docs| == |names|)
    {
      if streamlineFolder !in disk.dirs {
        return false;
      }
      streamlineAllTimeWindows, completed := MergeFiles(streamlineAllTimeWindows, streamlineFolder, JsonFiles(disk.dirs[streamlineFolder]), disk);
    }

    // -------------------------------------------------------------------------
    // Route handlers

    /** `GET /api/load-subjects-files`: the active pair is answered from
        memory without re-reading; another non-empty pair is read, answered,
        then merged into the all-windows cache; otherwise a message. A
        handler that throws sends nothing and skips the merge. */
    method LoadSubjectsFiles(subject: string, file: string, disk: Disk) returns (resp: Response)
      modifies this
      ensures old(IsActive(subject, file)) ==>
                && unchanged(this)
                && (resp.Data? <==> RespDefined("0"))
                && (resp.Data? ==> IsRespPayload(resp.payload, "0"))
                && (!resp.Data? ==> resp.Thrown?)
      ensures !old(IsActive(subject, file)) && subject != "" && file != "" ==>
                && Reloaded(subject, file, JsPaths(MetadataPath(subject, file)), disk)
                && (resp.Data? || resp.Thrown?)
                && (resp.Data? <==> SliceDefined(vxDoc, vyDoc, vzDoc, "0")
                                    && Summarise(condAData, patternData, streamlinesTimeWindows, "0").Success?)
                && (resp.Data? ==> ReadPayload(resp.payload, subject, JsPaths(MetadataPath(subject, file)), disk))
                && (resp.Data? && streamlineFolder in disk.dirs ==>
                      streamlineAllTimeWindows
                      == MergeAll(old(streamlineAllTimeWindows),
                                  ReadablePrefix(streamlineFolder, JsonFiles(disk.dirs[streamlineFolder]), StreamlineDocs(disk))))
                && (resp.Thrown? || streamlineFolder !in disk.dirs ==> streamlineAllTimeWindows == old(streamlineAllTimeWindows))
      ensures !old(IsActive(subject, file)) && (subject == "" || file == "") ==>
                unchanged(this) && resp == Message("No data found.")
    {
      if IsActive(subject, file) {
        var r := RespPVFJson("0");
        resp := if r.Success? then Data(r.value) else Thrown(r.error);
      } else if subject != "" && file != "" {
        resp := LoadNewPair(subject, file, disk);
      } else {
        resp := Message("No data found.");
      }
    }

    /** The branch of `GET /api/load-subjects-files` for a pair that is not
        the active one: the dataset is read and answered, then the streamline
        folder is merged; a read that throws skips the merge. */
    method LoadNewPair(subject: string, file: string, disk: Disk) returns (resp: Response)
      modifies this
      ensures Reloaded(subject, file, JsPaths(MetadataPath(subject, file)), disk)
      ensures resp.Data? || resp.Thrown?
      ensures resp.Data? <==> SliceDefined(vxDoc, vyDoc, vzDoc, "0")
                              && Summarise(condAData, patternData, streamlinesTimeWindows, "0").Success?
      ensures resp.Data? ==> ReadPayload(resp.payload, subject, JsPaths(MetadataPath(subject, file)), disk)
      ensures resp.Data? && streamlineFolder in disk.dirs ==>
                streamlineAllTimeWindows
                == MergeAll(old(streamlineAllTimeWindows),
                            ReadablePrefix(streamlineFolder, JsonFiles(disk.dirs[streamlineFolder]), StreamlineDocs(disk)))
      ensures resp.Thrown? || streamlineFolder !in disk.dirs ==> streamlineAllTimeWindows == old(streamlineAllTimeWindows)
    {
      var r := ReadPVFJson(subject, file, disk);
      if r.Failure? {
        return Thrown(r.error);
      }
      resp := Data(r.value);
      var _ := LoadStreamlinesAllTimeWindows(disk);
    }

    /** `GET /api/update-PVF-streamlines`: only the active pair is served; a
        mismatched pair gets no response at all and nothing is called. */
    method UpdatePVFStreamlinesRoute(subject: string, file: string, timepoint: string) returns (resp: Response)
      ensures !IsActive(subject, file) ==> resp == NoResponse
      ensures IsActive(subject, file) ==>
                && (resp.Data? <==> UpdateDefined(timepoint))
                && (resp.Data? ==> IsUpdatePayload(resp.payload, timepoint))
                && (!resp.Data? ==> resp.Thrown?)
    {
      if IsActive(subject, file) {
        var r := UpdatePVFStreamlines(timepoint);
        resp := if r.Success? then Data(r.value) else Thrown(r.error);
      } else {
        resp := NoResponse;
      }
    }
  }
}
