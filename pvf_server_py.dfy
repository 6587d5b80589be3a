/** The active-dataset state of the Python server (`3dpvf_server.py`): the
    module globals as the fields of one object, `read_pvf_json`,
    `resp_pvf_json`, `update_pvf_streamlines_data`, the merge of
    `load_streamlines_all_time_windows`, and the decisions of the two route
    handlers that use them. */
module PvfServerPy {
  import opened Wrappers
  import opened Strings
  import opened JsValues
  import opened ArrayShape
  import opened PyValues
  import opened PvfFiles
  import opened TimeSlicePy

  /** The initial `dim_shift`. */
  const DefaultDimShift: JsValue := Arr([Num(25.0), Num(25.0), Num(25.0)])

  const InvalidTimepoint: string := "Invalid timepoint format"

  // ---------------------------------------------------------------------------
  // The try blocks of read_pvf_json, as values

  /** How far the metadata `try` block got: each field is present when the
      statement that produced it ran, and the block stops at the first one
      that raises. */
  datatype MetadataRead = MetadataRead(
    doc: Option<JsValue>, mask: Option<JsValue>, times: Option<JsValue>, count: Option<nat>, dimShift: Option<JsValue>)

  /** The metadata block: the file is parsed, then `np.asarray(doc["volume_mask"])`,
      `doc["times"]` and its `len`, then `doc["dim_shift"]` (every entry of
      the per-subject override table `temporary_map_dim_shifts` is commented
      out, so the document's own value is the one used). */
  function MetadataBlock(subjectName: string, disk: Disk, path: string): (r: MetadataRead)
    ensures r.doc == (if path in disk.files then Some(disk.files[path]) else None)
    ensures r.mask.Some? ==> r.doc.Some? && Subscript(r.doc.value, "volume_mask") == Success(r.mask.value)
    ensures r.times.Some? ==> r.mask.Some? && Subscript(r.doc.value, "times") == Success(r.times.value)
    ensures r.count.Some? ==> r.times.Some? && Len(r.times.value) == Success(r.count.value)
    ensures r.dimShift.Some? ==> r.count.Some?
  {
    if path !in disk.files then MetadataRead(None, None, None, None, None)
    else
      var doc := disk.files[path];
      var vm := Subscript(doc, "volume_mask");
      if vm.Failure? || AsArray(vm.value).Failure? then MetadataRead(Some(doc), None, None, None, None)
      else
        var tm := Subscript(doc, "times");
        if tm.Failure? then MetadataRead(Some(doc), Some(vm.value), None, None, None)
        else
          var n := Len(tm.value);
          if n.Failure? then MetadataRead(Some(doc), Some(vm.value), Some(tm.value), None, None)
          else
            var ds := Subscript(doc, "dim_shift");
            MetadataRead(Some(doc), Some(vm.value), Some(tm.value), Some(n.value),
                         if ds.Success? then Some(ds.value) else None)
  }

  /** A well-formed metadata document gets through the whole block: the mask,
      the times and their count, and the document's `dim_shift`. */
  lemma MetadataBlockComplete(subjectName: string, disk: Disk, path: string)
    requires path in disk.files && disk.files[path].Obj?
    requires var f := disk.files[path].fields;
             && "volume_mask" in f && Rectangular(f["volume_mask"])
             && "times" in f && f["times"].Arr? && "dim_shift" in f
    ensures var f := disk.files[path].fields;
            MetadataBlock(subjectName, disk, path)
            == MetadataRead(Some(disk.files[path]), Some(f["volume_mask"]), Some(f["times"]),
                            Some(|f["times"].items|), Some(f["dim_shift"]))
  {
  }

  /** How far the Vx block got: the array, then the dimension `shape[0]` and
      the time count `shape[3]`. */
  datatype VxRead = VxRead(vx: Option<JsValue>, dims: Option<(nat, nat)>)

  /** The Vx block: `np.asarray(doc["Vx"])` is assigned before its
      `shape[3]` is read, so an array with fewer than four axes is installed
      but sets neither number. */
  function VxBlock(disk: Disk, path: string): (r: VxRead)
    ensures r.vx.Some? <==> path in disk.files && Subscript(disk.files[path], "Vx").Success?
                            && Rectangular(disk.files[path].fields["Vx"])
    ensures r.vx.Some? ==> r.vx.value == disk.files[path].fields["Vx"]
    ensures r.dims.Some? <==> r.vx.Some? && |Shape(r.vx.value)| >= 4
    ensures r.dims.Some? ==> r.dims.value == (Shape(r.vx.value)[0], Shape(r.vx.value)[3])
  {
    if path !in disk.files then VxRead(None, None)
    else
      var v := Subscript(disk.files[path], "Vx");
      if v.Failure? || AsArray(v.value).Failure? then VxRead(None, None)
      else
        var s := Shape(v.value);
        if |s| < 4 then VxRead(Some(v.value), None)
        else VxRead(Some(v.value), Some((s[0], s[3])))
  }

  /** A rectangular `[d0][d1][d2][d3]` Vx with non-empty spatial extents sets
      the dimension to `d0` and the time count to `d3`. */
  lemma VxBlockOfVolume(disk: Disk, path: string, d0: nat, d1: nat, d2: nat, d3: nat)
    requires path in disk.files && disk.files[path].Obj? && "Vx" in disk.files[path].fields
    requires HasShape(disk.files[path].fields["Vx"], [d0, d1, d2, d3]) && d0 > 0 && d1 > 0 && d2 > 0
    ensures VxBlock(disk, path) == VxRead(Some(disk.files[path].fields["Vx"]), Some((d0, d3)))
  {
    ShapeOfVolume(disk.files[path].fields["Vx"], d0, d1, d2, d3);
  }

  /** The Vy and Vz blocks: `np.asarray(doc[key])`. */
  function ArrayBlock(disk: Disk, path: string, key: string): (r: Option<JsValue>)
    ensures r.Some? <==> path in disk.files && Subscript(disk.files[path], key).Success?
                         && Rectangular(disk.files[path].fields[key])
    ensures r.Some? ==> r.value == disk.files[path].fields[key]
  {
    if path !in disk.files then None
    else
      var v := Subscript(disk.files[path], key);
      if v.Failure? || AsArray(v.value).Failure? then None else Some(v.value)
  }

  /** The optional keys of a response body: the ones `read_pvf_json` only
      sets when their block got that far. */
  datatype Header = Header(subjectId: Option<string>, times: Option<JsValue>, numTimePoints: Option<int>, dimension: Option<int>)

  /** What the body of `read_pvf_json` reports from its blocks: the subject
      once the mask converted, the times and their count from the metadata,
      and the dimension from Vx. */
  function HeaderFor(subjectName: string, paths: DatasetPaths, disk: Disk): (h: Header)
    ensures h.subjectId.Some? <==> MetadataBlock(subjectName, disk, paths.metadata).mask.Some?
    ensures h.numTimePoints.Some? ==> h.times.Some? && h.subjectId.Some?
  {
    var m := MetadataBlock(subjectName, disk, paths.metadata);
    var v := VxBlock(disk, paths.vx);
    Header(if m.mask.Some? then Some(subjectName) else None, m.times,
           if m.count.Some? then Some(m.count.value) else None,
           if v.dims.Some? then Some(v.dims.value.0) else None)
  }

  // ---------------------------------------------------------------------------
  // Responses

  /** The parts every data response computes, in the order they are
      evaluated. */
  datatype Parts = Parts(frame: Frame, streamlines: seq<seq<Position>>, condA: real, patterns: JsValue)

  datatype PyPayload = PyPayload(header: Header, parts: Parts)

  /** What a route handler answers: a data body, a message body, or an
      exception that escapes the handler (a server error). */
  datatype PyResponse = Data(payload: PyPayload) | Message(text: string) | Thrown(error: PyError)

  /** The globals the `try` blocks of `read_pvf_json` write. */
  datatype Documents = Documents(
    metadata: JsValue, mask: Option<JsValue>, pvfTimes: JsValue, dimShift: JsValue, vx: Option<JsValue>,
    numTimePoints: int, dimension: int, vy: Option<JsValue>, vz: Option<JsValue>,
    condAData: JsValue, patternData: JsValue, streamlinesTimeWindows: JsValue, streamlineAllTimeWindows: JsValue)

  /** The globals after the `try` blocks: each one re-read as far as its
      block got, and kept from `before` otherwise. The time count is the Vx
      shape's when that block got so far, else the metadata's; the first-window
      block also resets the all-windows cache to a copy of the first window. */
  function ReloadDocuments(before: Documents, subjectName: string, paths: DatasetPaths, disk: Disk): Documents {
    var meta := MetadataBlock(subjectName, disk, paths.metadata);
    var vxOut := VxBlock(disk, paths.vx);
    var vyOut := ArrayBlock(disk, paths.vy, "Vy");
    var vzOut := ArrayBlock(disk, paths.vz, "Vz");
    var first := PathJoin(paths.streamlines, FirstWindowFile);
    Documents(
      if meta.doc.Some? then meta.doc.value else before.metadata,
      if meta.mask.Some? then meta.mask else before.mask,
      if meta.count.Some? then meta.times.value else before.pvfTimes,
      if meta.dimShift.Some? then meta.dimShift.value else before.dimShift,
      if vxOut.vx.Some? then vxOut.vx else before.vx,
      if vxOut.dims.Some? then vxOut.dims.value.1
      else if meta.count.Some? then meta.count.value else before.numTimePoints,
      if vxOut.dims.Some? then vxOut.dims.value.0 else before.dimension,
      if vyOut.Some? then vyOut else before.vy,
      if vzOut.Some? then vzOut else before.vz,
      Reload(before.condAData, disk, paths.condA),
      Reload(before.patternData, disk, paths.pattern),
      Reload(before.streamlinesTimeWindows, disk, first),
      Reload(before.streamlineAllTimeWindows, disk, first))
  }

  /** The globals the responses read. */
  datatype Globals = Globals(
    mask: Option<JsValue>, vx: Option<JsValue>, vy: Option<JsValue>, vz: Option<JsValue>, dimShift: JsValue,
    allTimeWindows: JsValue, condAData: JsValue, patternData: JsValue)

  /** The globals the responses read, out of the re-read ones. */
  function GlobalsOf(d: Documents): Globals {
    Globals(d.mask, d.vx, d.vy, d.vz, d.dimShift, d.streamlineAllTimeWindows, d.condAData, d.patternData)
  }

  /** `sum(condA[key]) / len(condA[key])`, then the patterns: `get(key, {})`
      on load, `[key]` elsewhere. */
  function Summarise(condAData: JsValue, patternData: JsValue, key: string, patternDefault: bool): (r: Result<(real, JsValue), PyError>)
    ensures r.Success? <==> Subscript(condAData, key).Success? && Mean(condAData.fields[key]).Success?
                            && patternData.Obj? && (patternDefault || key in patternData.fields)
    ensures r.Success? ==> r.value.0 == Mean(condAData.fields[key]).value
    ensures r.Success? ==> r.value.1 == (if key in patternData.fields then patternData.fields[key] else Obj(map[]))
  {
    var values :- Subscript(condAData, key);
    var condA :- Mean(values);
    var patterns :- if patternDefault then GetOr(patternData, key, Obj(map[])) else Subscript(patternData, key);
    Success((condA, patterns))
  }

  /** The parts of the body for time `t`, `key` indexing condA and patterns. */
  function Answer(g: Globals, t: int, key: string, patternDefault: bool): Result<Parts, PyError> {
    var frame :- ProcessPvfTimeWindow(g.mask, g.vx, g.vy, g.vz, g.dimShift, t);
    var lines :- Streamlines(g.allTimeWindows, g.dimShift, t);
    var s :- Summarise(g.condAData, g.patternData, key, patternDefault);
    Success(Parts(frame, lines, s.0, s.1))
  }

  function WithHeader(a: Result<Parts, PyError>, h: Header): (r: Result<PyPayload, PyError>)
    ensures r.Success? <==> a.Success?
    ensures r.Success? ==> r.value.header == h && r.value.parts == a.value
    ensures r.Failure? ==> r.error == a.error
  {
    if a.Success? then Success(PyPayload(h, a.value)) else Failure(a.error)
  }

  /** A body whose slice and streamlines are fine fails on an empty condA
      list: `sum/len` has no guard against division by zero. */
  lemma AnswerEmptyCondA(g: Globals, t: int, key: string, patternDefault: bool)
    requires ProcessPvfTimeWindow(g.mask, g.vx, g.vy, g.vz, g.dimShift, t).Success?
    requires Streamlines(g.allTimeWindows, g.dimShift, t).Success?
    requires g.condAData.Obj? && key in g.condAData.fields && g.condAData.fields[key] == Arr([])
    ensures Answer(g, t, key, patternDefault) == Failure(ZeroDivisionError)
  {
  }

  /** A missing patterns key: `get` answers `{}` on load, where direct
      indexing raises KeyError. */
  lemma AnswerMissingPatterns(g: Globals, t: int, key: string)
    requires ProcessPvfTimeWindow(g.mask, g.vx, g.vy, g.vz, g.dimShift, t).Success?
    requires Streamlines(g.allTimeWindows, g.dimShift, t).Success?
    requires g.condAData.Obj? && key in g.condAData.fields && Mean(g.condAData.fields[key]).Success?
    requires g.patternData.Obj? && key !in g.patternData.fields
    ensures Answer(g, t, key, true).Success? && Answer(g, t, key, true).value.patterns == Obj(map[])
    ensures Answer(g, t, key, false) == Failure(KeyError)
  {
  }

  /** Streamlines come from the all-windows cache: a time key it lacks raises
      KeyError once the slice is computed. */
  lemma AnswerMissingStreamlines(g: Globals, t: int, key: string, patternDefault: bool)
    requires ProcessPvfTimeWindow(g.mask, g.vx, g.vy, g.vz, g.dimShift, t).Success?
    requires g.allTimeWindows.Obj? && IntToString(t) !in g.allTimeWindows.fields
    ensures Answer(g, t, key, patternDefault) == Failure(KeyError)
  {
  }

  /** What the update route answers for a parsed time: the body, or the
      format message when a ValueError escapes (an empty streamline's
      broadcast raises one too), or the exception. */
  function UpdateResponse(a: Result<Parts, PyError>, times: JsValue): (resp: PyResponse)
    ensures resp.Data? <==> a.Success?
    ensures resp.Data? ==> resp.payload == PyPayload(Header(None, Some(times), None, None), a.value)
    ensures resp.Message? <==> a == Failure(ValueError)
    ensures resp.Thrown? <==> a.Failure? && a.error != ValueError
  {
    if a.Success? then Data(PyPayload(Header(None, Some(times), None, None), a.value))
    else if a.error == ValueError then Message(InvalidTimepoint)
    else Thrown(a.error)
  }

  /** The documents the Python merge loop can use: a parsed file whose top
      level is a dict (anything else has no `items`). */
  function StreamlineDocs(disk: Disk): map<string, Doc> {
    map p | p in disk.files && disk.files[p].Obj? :: disk.files[p].fields
  }

  /** `for timepoint, streamlines in doc.items(): cache[timepoint] = streamlines`,
      on the dict itself: one entry at a time, in any order, since the keys
      are distinct. */
  method WriteAll(cache: Doc, m: Doc) returns (r: Doc)
    ensures r == cache + m
  {
    var keys := m.Keys;
    ghost var done: Doc := map[];
    r := cache;
    while keys != {}
      invariant keys <= m.Keys && done.Keys == m.Keys - keys
      invariant forall k :: k in done ==> done[k] == m[k]
      invariant r == cache + done
      decreases |keys|
    {
      var key :| key in keys;
      r := r[key := m[key]];
      done := done[key := m[key]];
      keys := keys - {key};
    }
    assert done == m;
  }

  class PyServer {
    const subjectsDir: string

    var subjectId: string
    var metadataFname: string
    var metadata: JsValue
    var numTimePoints: int
    var pvfTimes: JsValue
    var dimension: int
    /** `pvf_mask_volume`, `pvf_vx`, `pvf_vy`, `pvf_vz`: `None` while they
        still hold the initial Python list `[]`, an array afterwards. */
    var mask: Option<JsValue>
    var vx: Option<JsValue>
    var vy: Option<JsValue>
    var vz: Option<JsValue>
    var dimShift: JsValue
    var condAData: JsValue
    var patternData: JsValue
    var streamlineFolder: string
    /** `pvf_streamlines_time_windows`: the first time-window file. */
    var streamlinesTimeWindows: JsValue
    /** `pvf_streamline_all_time_windows`: reset to a copy of the first
        window on every load, then filled by the merge. */
    var streamlineAllTimeWindows: JsValue

    /** The globals as the module initialises them. */
    constructor (subjectsDir: string)
      ensures this.subjectsDir == subjectsDir
      ensures subjectId == "" && metadataFname == "" && metadata == Obj(map[])
      ensures numTimePoints == 0 && pvfTimes == Arr([]) && dimension == 50
      ensures mask.None? && vx.None? && vy.None? && vz.None? && dimShift == DefaultDimShift
      ensures condAData == Obj(map[]) && patternData == Obj(map[])
      ensures streamlineFolder == "" && streamlinesTimeWindows == Obj(map[]) && streamlineAllTimeWindows == Obj(map[])
    {
      this.subjectsDir := subjectsDir;
      subjectId, metadataFname, metadata := "", "", Obj(map[]);
      numTimePoints, pvfTimes, dimension := 0, Arr([]), 50;
      mask, vx, vy, vz, dimShift := None, None, None, None, DefaultDimShift;
      condAData, patternData := Obj(map[]), Obj(map[]);
      streamlineFolder, streamlinesTimeWindows, streamlineAllTimeWindows := "", Obj(map[]), Obj(map[]);
    }

    /** `f"{PVF_SUBJECTS_DIR}/{subject_name}/{file_name}"`. */
    function MetadataPath(subjectName: string, fileName: string): string {
      PathJoin(PathJoin(subjectsDir, subjectName), fileName)
    }

    /** The loaded pair is the one asked for. */
    predicate IsActive(subject: string, file: string)
      reads this`subjectId, this`metadataFname
    {
      subjectId == subject && metadataFname == file
    }

    /** The globals the responses read. */
    function Snapshot(): Globals
      reads this
    {
      Globals(mask, vx, vy, vz, dimShift, streamlineAllTimeWindows, condAData, patternData)
    }

    /** The identity keys every full body carries, from the globals. */
    function CurrentHeader(): Header
      reads this
    {
      Header(Some(subjectId), Some(pvfTimes), Some(numTimePoints), Some(dimension))
    }

    // -------------------------------------------------------------------------
    // resp_pvf_json and update_pvf_streamlines_data

    /** `resp_pvf_json(t)`: the full body from the globals, with the
        streamlines of the all-windows cache and the patterns indexed
        directly. */
    method RespPvfJson(t: int) returns (r: Result<PyPayload, PyError>)
      ensures r == WithHeader(Answer(Snapshot(), t, IntToString(t), false), CurrentHeader())
    {
      var parts := ComputeParts(t, IntToString(t), false);
      r := WithHeader(parts, CurrentHeader());
    }

    /** The slice, the streamline loop and the summary, in that order. */
    method ComputeParts(t: int, key: string, patternDefault: bool) returns (r: Result<Parts, PyError>)
      ensures r == Answer(Snapshot(), t, key, patternDefault)
    {
      var frame := ProcessPvfTimeWindow(mask, vx, vy, vz, dimShift, t);
      if frame.Failure? {
        return Failure(frame.error);
      }
      var lines := ProcessStreamlinesTimeWindow(streamlineAllTimeWindows, dimShift, t);
      if lines.Failure? {
        return Failure(lines.error);
      }
      var s := Summarise(condAData, patternData, key, patternDefault);
      if s.Failure? {
        return Failure(s.error);
      }
      r := Success(Parts(frame.value, lines.value, s.value.0, s.value.1));
    }

    /** `update_pvf_streamlines_data(timepoint)`: the time is `int(timepoint)`
        and condA and the patterns are indexed by the text as sent; a
        ValueError anywhere answers the format message. */
    method UpdatePvfStreamlinesData(timepoint: string) returns (resp: PyResponse)
      ensures ParseInt(timepoint).None? ==> resp == Message(InvalidTimepoint)
      ensures ParseInt(timepoint).Some? ==>
                resp == UpdateResponse(Answer(Snapshot(), ParseInt(timepoint).value, timepoint, false), pvfTimes)
    {
      var t := ParseInt(timepoint);
      if t.None? {
        return Message(InvalidTimepoint);
      }
      var parts := ComputeParts(t.value, timepoint, false);
      resp := UpdateResponse(parts, pvfTimes);
    }

    // -------------------------------------------------------------------------
    // read_pvf_json

    /** The identity globals `read_pvf_json` assigns before any file is read. */
    predicate IdentitySet(subjectName: string, fileName: string, paths: DatasetPaths)
      reads this`subjectId, this`metadataFname, this`streamlineFolder
    {
      subjectId == subjectName && metadataFname == fileName && streamlineFolder == paths.streamlines
    }

    method SetIdentity(subjectName: string, fileName: string, paths: DatasetPaths)
      modifies this`subjectId, this`metadataFname, this`streamlineFolder
      ensures IdentitySet(subjectName, fileName, paths)
    {
      subjectId, metadataFname, streamlineFolder := subjectName, fileName, paths.streamlines;
    }

    /** The metadata block, statement by statement. */
    method ReadMetadata(subjectName: string, path: string, disk: Disk)
      modifies this`metadata, this`mask, this`numTimePoints, this`pvfTimes, this`dimShift
      ensures var out := MetadataBlock(subjectName, disk, path);
              && metadata == (if out.doc.Some? then out.doc.value else old(metadata))
              && mask == (if out.mask.Some? then out.mask else old(mask))
              && numTimePoints == (if out.count.Some? then out.count.value else old(numTimePoints))
              && pvfTimes == (if out.count.Some? then out.times.value else old(pvfTimes))
              && dimShift == (if out.dimShift.Some? then out.dimShift.value else old(dimShift))
    {
      if path !in disk.files {
        return;
      }
      metadata := disk.files[path];
      var vm := Subscript(metadata, "volume_mask");
      if vm.Failure? || AsArray(vm.value).Failure? {
        return;
      }
      mask := Some(vm.value);
      var tm := Subscript(metadata, "times");
      if tm.Failure? {
        return;
      }
      var n := Len(tm.value);
      if n.Failure? {
        return;
      }
      numTimePoints := n.value;
      pvfTimes := tm.value;
      var ds := Subscript(metadata, "dim_shift");
      if ds.Success? {
        dimShift := ds.value;
      }
    }

    /** The Vx block: the array, then the time count and the dimension from
        its shape. */
    method ReadVx(path: string, disk: Disk)
      modifies this`vx, this`numTimePoints, this`dimension
      ensures var out := VxBlock(disk, path);
              && vx == (if out.vx.Some? then out.vx else old(vx))
              && numTimePoints == (if out.dims.Some? then out.dims.value.1 else old(numTimePoints))
              && dimension == (if out.dims.Some? then out.dims.value.0 else old(dimension))
    {
      if path !in disk.files {
        return;
      }
      var v := Subscript(disk.files[path], "Vx");
      if v.Failure? || AsArray(v.value).Failure? {
        return;
      }
      vx := Some(v.value);
      var s := Shape(v.value);
      if |s| < 4 {
        return;
      }
      numTimePoints := s[3];
      dimension := s[0];
    }

    /** The blocks after Vx; the first-window block resets the all-windows
        cache to a copy of the first window. */
    method ReadRest(paths: DatasetPaths, disk: Disk)
      modifies this`vy, this`vz, this`condAData, this`patternData, this`streamlinesTimeWindows, this`streamlineAllTimeWindows
      ensures var vyOut := ArrayBlock(disk, paths.vy, "Vy");
              var vzOut := ArrayBlock(disk, paths.vz, "Vz");
              && vy == (if vyOut.Some? then vyOut else old(vy))
              && vz == (if vzOut.Some? then vzOut else old(vz))
      ensures condAData == Reload(old(condAData), disk, paths.condA)
      ensures patternData == Reload(old(patternData), disk, paths.pattern)
      ensures streamlinesTimeWindows == Reload(old(streamlinesTimeWindows), disk, PathJoin(paths.streamlines, FirstWindowFile))
      ensures streamlineAllTimeWindows == Reload(old(streamlineAllTimeWindows), disk, PathJoin(paths.streamlines, FirstWindowFile))
    {
      var a := ArrayBlock(disk, paths.vy, "Vy");
      if a.Some? {
        vy := a;
      }
      a := ArrayBlock(disk, paths.vz, "Vz");
      if a.Some? {
        vz := a;
      }
      condAData := Reload(condAData, disk, paths.condA);
      patternData := Reload(patternData, disk, paths.pattern);
      var first := PathJoin(paths.streamlines, FirstWindowFile);
      if first in disk.files {
        streamlinesTimeWindows := disk.files[first];
        streamlineAllTimeWindows := disk.files[first];
      }
    }

    /** The globals the `try` blocks of `read_pvf_json` write. */
    function Docs(): Documents
      reads this`metadata, this`mask, this`pvfTimes, this`dimShift, this`vx, this`numTimePoints, this`dimension,
            this`vy, this`vz, this`condAData, this`patternData, this`streamlinesTimeWindows, this`streamlineAllTimeWindows
    {
      Documents(metadata, mask, pvfTimes, dimShift, vx, numTimePoints, dimension, vy, vz,
                condAData, patternData, streamlinesTimeWindows, streamlineAllTimeWindows)
    }

    /** The globals after the `try` blocks. */
    twostate predicate DocumentsReloaded(subjectName: string, paths: DatasetPaths, disk: Disk)
      reads this`metadata, this`mask, this`pvfTimes, this`dimShift, this`vx, this`numTimePoints, this`dimension,
            this`vy, this`vz, this`condAData, this`patternData, this`streamlinesTimeWindows, this`streamlineAllTimeWindows
    {
      Docs() == ReloadDocuments(old(Docs()), subjectName, paths, disk)
    }

    /** Everything `read_pvf_json` leaves in the globals. */
    twostate predicate Reloaded(subjectName: string, fileName: string, paths: DatasetPaths, disk: Disk)
      reads this`subjectId, this`metadataFname, this`streamlineFolder,
            this`metadata, this`mask, this`pvfTimes, this`dimShift, this`vx, this`numTimePoints, this`dimension,
            this`vy, this`vz, this`condAData, this`patternData, this`streamlinesTimeWindows, this`streamlineAllTimeWindows
    {
      IdentitySet(subjectName, fileName, paths) && DocumentsReloaded(subjectName, paths, disk)
    }

    method ReloadDataset(subjectName: string, paths: DatasetPaths, disk: Disk)
      modifies this`metadata, this`mask, this`numTimePoints, this`pvfTimes, this`dimShift, this`vx, this`dimension,
               this`vy, this`vz, this`condAData, this`patternData, this`streamlinesTimeWindows, this`streamlineAllTimeWindows
      ensures DocumentsReloaded(subjectName, paths, disk)
    {
      ghost var before := Docs();
      ReadMetadata(subjectName, paths.metadata, disk);
      ReadVx(paths.vx, disk);
      ReadRest(paths, disk);
      assert Docs() == ReloadDocuments(before, subjectName, paths, disk);
    }

    /** `read_pvf_json(subject_name, file_name)`: re-reads the dataset into
        the globals, then answers time 0 outside any `try`, so an exception
        there escapes. The body's header keys are present as far as their
        blocks got. */
    method ReadPvfJson(subjectName: string, fileName: string, disk: Disk) returns (r: Result<PyPayload, PyError>)
      modifies this
      ensures Reloaded(subjectName, fileName, PyPaths(MetadataPath(subjectName, fileName)), disk)
      ensures r == WithHeader(Answer(Snapshot(), 0, "0", true), HeaderFor(subjectName, PyPaths(MetadataPath(subjectName, fileName)), disk))
    {
      r := ReadPaths(subjectName, fileName, PyPaths(MetadataPath(subjectName, fileName)), disk);
    }

    method ReadPaths(subjectName: string, fileName: string, paths: DatasetPaths, disk: Disk) returns (r: Result<PyPayload, PyError>)
      modifies this
      ensures Reloaded(subjectName, fileName, paths, disk)
      ensures r == WithHeader(Answer(Snapshot(), 0, "0", true), HeaderFor(subjectName, paths, disk))
    {
      SetIdentity(subjectName, fileName, paths);
      ReloadDataset(subjectName, paths, disk);
      var parts := ComputeParts(0, "0", true);
      r := WithHeader(parts, HeaderFor(subjectName, paths, disk));
    }

    // -------------------------------------------------------------------------
    // load_streamlines_all_time_windows

    /** The merge loop: every `.json` file of the streamline folder, in
        listing order, has every entry written into the all-windows cache.
        A missing folder raises before the loop; a file that cannot be read
        or is not a dict ends it, keeping what earlier files wrote. A cache
        that is not a dict rejects every write and stays as it is.
        `completed` tells whether every file was merged; `load_streamlines_all_time_windows`
        itself returns nothing, and the flag exists only for the contract. */
    method LoadStreamlinesAllTimeWindows(disk: Disk) returns (completed: bool)
      modifies this`streamlineAllTimeWindows
      ensures streamlineFolder !in disk.dirs || !old(streamlineAllTimeWindows).Obj? ==>
                streamlineAllTimeWindows == old(streamlineAllTimeWindows) && !completed
      ensures streamlineFolder in disk.dirs && old(streamlineAllTimeWindows).Obj? ==>
                var names := JsonFiles(disk.dirs[streamlineFolder]);
                var docs := ReadablePrefix(streamlineFolder, names, StreamlineDocs(disk));
                && streamlineAllTimeWindows == Obj(MergeAll(old(streamlineAllTimeWindows).fields, docs))
                && (completed <==> |docs| == |names|)
    {
      if streamlineFolder !in disk.dirs || !streamlineAllTimeWindows.Obj? {
        return false;
      }
      completed := MergeFiles(streamlineFolder, JsonFiles(disk.dirs[streamlineFolder]), disk);
    }

    /** The loop over the listed `.json` names of `folder`; `completed`
        exists only for the contract. */
    method MergeFiles(folder: string, names: seq<string>, disk: Disk) returns (completed: bool)
      requires streamlineAllTimeWindows.Obj?
      modifies this`streamlineAllTimeWindows
      ensures var docs := ReadablePrefix(folder, names, StreamlineDocs(disk));
              && streamlineAllTimeWindows == Obj(MergeAll(old(streamlineAllTimeWindows).fields, docs))
              && (completed <==> |docs| == |names|)
    {
      ghost var files := StreamlineDocs(disk);
      ghost var start := streamlineAllTimeWindows.fields;
      var n := 0;
      while n < |names|
        invariant n <= |ReadablePrefix(folder, names, files)|
        invariant streamlineAllTimeWindows == Obj(MergeAll(start, ReadablePrefix(folder, names, files)[..n]))
      {
        var path := PathJoin(folder, names[n]);
        if path !in disk.files || !disk.files[path].Obj? {
          PrefixEnd(folder, names, files, n);
          return false;
        }
        PrefixNext(folder, names, files, n);
        MergeNext(start, ReadablePrefix(folder, names, files), n);
        WriteEntries(disk.files[path].fields);
        n := n + 1;
      }
      PrefixEnd(folder, names, files, n);
      completed := true;
    }

    /** One document merged into the all-windows cache. */
    method WriteEntries(m: Doc)
      requires streamlineAllTimeWindows.Obj?
      modifies this`streamlineAllTimeWindows
      ensures streamlineAllTimeWindows == Obj(old(streamlineAllTimeWindows).fields + m)
    {
      var cache := WriteAll(streamlineAllTimeWindows.fields, m);
      streamlineAllTimeWindows := Obj(cache);
    }

    // -------------------------------------------------------------------------
    // Route handlers

    /** `GET /api/load-subjects-files`: the active pair is answered from
        memory without re-reading; another non-empty pair is read and
        answered, and the background merge runs after a response that did
        not raise; otherwise a message. */
    method LoadSubjectsFiles(subject: string, file: string, disk: Disk) returns (resp: PyResponse)
      modifies this
      ensures old(IsActive(subject, file)) ==>
                && unchanged(this)
                && var r := WithHeader(Answer(Snapshot(), 0, "0", false), CurrentHeader());
                   resp == (if r.Success? then Data(r.value) else Thrown(r.error))
      ensures !old(IsActive(subject, file)) && subject != "" && file != "" ==>
                NewPairLoaded(subject, file, disk, resp)
      ensures !old(IsActive(subject, file)) && (subject == "" || file == "") ==>
                unchanged(this) && resp == Message("No data found.")
    {
      if IsActive(subject, file) {
        var r := RespPvfJson(0);
        resp := if r.Success? then Data(r.value) else Thrown(r.error);
      } else if subject != "" && file != "" {
        resp := LoadNewPair(subject, file, disk);
      } else {
        resp := Message("No data found.");
      }
    }

    /** What the route leaves for a pair that is not the active one: the
        identity of the pair; every re-read global as `read_pvf_json` left it;
        the time-0 body of those globals under the fresh header, or the error
        it raised; and the all-windows cache merged from the streamline folder
        after a body that did not raise. */
    twostate predicate NewPairLoaded(subject: string, file: string, disk: Disk, resp: PyResponse)
      reads this
    {
      var paths := PyPaths(MetadataPath(subject, file));
      var loaded := ReloadDocuments(old(Docs()), subject, paths, disk);
      var r := WithHeader(Answer(GlobalsOf(loaded), 0, "0", true), HeaderFor(subject, paths, disk));
      var cache := loaded.streamlineAllTimeWindows;
      && IdentitySet(subject, file, paths)
      && resp == (if r.Success? then Data(r.value) else Thrown(r.error))
      && Docs() == loaded.(streamlineAllTimeWindows := streamlineAllTimeWindows)
      && (resp.Data? && streamlineFolder in disk.dirs && cache.Obj? ==>
            streamlineAllTimeWindows
            == Obj(MergeAll(cache.fields, ReadablePrefix(streamlineFolder, JsonFiles(disk.dirs[streamlineFolder]), StreamlineDocs(disk)))))
      && (resp.Thrown? || streamlineFolder !in disk.dirs || !cache.Obj? ==> streamlineAllTimeWindows == cache)
    }

    /** The branch of `GET /api/load-subjects-files` for a pair that is not
        the active one: the dataset is read and answered, and the background
        merge runs once the body is returned. */
    method LoadNewPair(subject: string, file: string, disk: Disk) returns (resp: PyResponse)
      modifies this
      ensures NewPairLoaded(subject, file, disk, resp)
    {
      var r := ReadPvfJson(subject, file, disk);
      assert Snapshot() == GlobalsOf(Docs());
      if r.Failure? {
        return Thrown(r.error);
      }
      resp := Data(r.value);
      var _ := LoadStreamlinesAllTimeWindows(disk);
    }

    /** `GET /api/update-PVF-streamlines`: only the active pair with a
        non-empty time is served; anything else gets the mismatch message and
        nothing is called. */
    method UpdatePvfStreamlines(subject: string, file: string, timepoint: string) returns (resp: PyResponse)
      ensures !(IsActive(subject, file) && timepoint != "") ==> resp == Message("Subject or file mismatch")
      ensures IsActive(subject, file) && timepoint != "" && ParseInt(timepoint).None? ==> resp == Message(InvalidTimepoint)
      ensures IsActive(subject, file) && timepoint != "" && ParseInt(timepoint).Some? ==>
                resp == UpdateResponse(Answer(Snapshot(), ParseInt(timepoint).value, timepoint, false), pvfTimes)
    {
      if IsActive(subject, file) && timepoint != "" {
        resp := UpdatePvfStreamlinesData(timepoint);
      } else {
        resp := Message("Subject or file mismatch");
      }
    }
  }
}
