/** The Python server's per-time-window projection: `process_pvf_time_window`
    (3dpvf_server.py), which keeps only the voxels the volume mask selects and
    pairs each one's shifted and scaled position with its velocity at time
    `t`, and `process_streamlines_time_window`, which shifts and scales every
    streamline point the same way. numpy's `meshgrid` and boolean masking are
    modelled by their meaning: index triples in row-major order. */
module TimeSlicePy {
  import opened Wrappers
  import opened Strings
  import opened JsValues
  import opened ArrayShape
  import opened PyValues

  /** An index triple `(i, j, k)` into the spatial extents of a volume. */
  type Voxel = (nat, nat, nat)

  /** A position in the viewer's space. */
  type Position = (real, real, real)

  /** One row of `directions`: the three velocity components, passed through. */
  type Direction = (JsValue, JsValue, JsValue)

  /** The two arrays `process_pvf_time_window` returns, row by row. */
  datatype Frame = Frame(positions: seq<Position>, directions: seq<Direction>)

  // ---------------------------------------------------------------------------
  // Masked voxels

  /** Row-major (C) order on index triples, the order in which a boolean
      mask visits the cells of a three-dimensional array. */
  predicate Before(p: Voxel, q: Voxel) {
    p.0 < q.0 || (p.0 == q.0 && (p.1 < q.1 || (p.1 == q.1 && p.2 < q.2)))
  }

  predicate StrictlyOrdered(s: seq<Voxel>) {
    forall a, b :: 0 <= a < b < |s| ==> Before(s[a], s[b])
  }

  /** Cell `[i][j][k]` of the mask is `True`. */
  predicate Selected(mask: JsValue, i: nat, j: nat, k: nat) {
    At(At(At(mask, i), j), k) == Bool(true)
  }

  /** The selected cells of row `[i][j]` from column `k` on. */
  function MaskedRow(mask: JsValue, n: nat, i: nat, j: nat, k: nat): seq<Voxel>
    decreases n - k
  {
    if k >= n then []
    else (if Selected(mask, i, j, k) then [(i, j, k)] else []) + MaskedRow(mask, n, i, j, k + 1)
  }

  /** The selected cells of plane `[i]` from row `j` on. */
  function MaskedPlane(mask: JsValue, n: nat, i: nat, j: nat): seq<Voxel>
    decreases n - j
  {
    if j >= n then [] else MaskedRow(mask, n, i, j, 0) + MaskedPlane(mask, n, i, j + 1)
  }

  /** The selected cells of the cube from plane `i` on. */
  function MaskedCube(mask: JsValue, n: nat, i: nat): seq<Voxel>
    decreases n - i
  {
    if i >= n then [] else MaskedPlane(mask, n, i, 0) + MaskedCube(mask, n, i + 1)
  }

  /** The cells an `n`×`n`×`n` boolean mask selects, in the order numpy
      returns them. */
  function MaskedVoxels(mask: JsValue, n: nat): seq<Voxel> {
    MaskedCube(mask, n, 0)
  }

  /** The set of selected cells, the reference the voxel list is checked
      against. */
  function SelectedCells(mask: JsValue, n: nat): set<Voxel> {
    set i: nat, j: nat, k: nat | i < n && j < n && k < n && Selected(mask, i, j, k) :: (i, j, k)
  }

  lemma ConcatOrdered(a: seq<Voxel>, b: seq<Voxel>)
    requires StrictlyOrdered(a) && StrictlyOrdered(b)
    requires forall x, y :: x in a && y in b ==> Before(x, y)
    ensures StrictlyOrdered(a + b)
  {
    var c := a + b;
    forall x, y | 0 <= x < y < |c| ensures Before(c[x], c[y]) {
      if y < |a| {
        assert c[x] == a[x] && c[y] == a[y];
      } else if x >= |a| {
        assert c[x] == b[x - |a|] && c[y] == b[y - |a|];
      } else {
        assert c[x] == a[x] && c[y] == b[y - |a|];
      }
    }
  }

  lemma {:induction false} MaskedRowFacts(mask: JsValue, n: nat, i: nat, j: nat, k: nat)
    ensures forall p :: p in MaskedRow(mask, n, i, j, k) <==>
              p.0 == i && p.1 == j && k <= p.2 < n && Selected(mask, p.0, p.1, p.2)
    ensures StrictlyOrdered(MaskedRow(mask, n, i, j, k))
    decreases n - k
  {
    if k < n {
      MaskedRowFacts(mask, n, i, j, k + 1);
      var head: seq<Voxel> := if Selected(mask, i, j, k) then [(i, j, k)] else [];
      ConcatOrdered(head, MaskedRow(mask, n, i, j, k + 1));
    }
  }

  lemma {:induction false} MaskedPlaneFacts(mask: JsValue, n: nat, i: nat, j: nat)
    ensures forall p :: p in MaskedPlane(mask, n, i, j) <==>
              p.0 == i && j <= p.1 < n && p.2 < n && Selected(mask, p.0, p.1, p.2)
    ensures StrictlyOrdered(MaskedPlane(mask, n, i, j))
    decreases n - j
  {
    if j < n {
      MaskedRowFacts(mask, n, i, j, 0);
      MaskedPlaneFacts(mask, n, i, j + 1);
      ConcatOrdered(MaskedRow(mask, n, i, j, 0), MaskedPlane(mask, n, i, j + 1));
    }
  }

  lemma {:induction false} MaskedCubeFacts(mask: JsValue, n: nat, i: nat)
    ensures forall p :: p in MaskedCube(mask, n, i) <==>
              i <= p.0 < n && p.1 < n && p.2 < n && Selected(mask, p.0, p.1, p.2)
    ensures StrictlyOrdered(MaskedCube(mask, n, i))
    decreases n - i
  {
    if i < n {
      MaskedPlaneFacts(mask, n, i, 0);
      MaskedCubeFacts(mask, n, i + 1);
      ConcatOrdered(MaskedPlane(mask, n, i, 0), MaskedCube(mask, n, i + 1));
    }
  }

  /** The masked voxels are exactly the selected cells, each once, in
      row-major order. */
  lemma MaskedVoxelsMeaning(mask: JsValue, n: nat)
    ensures forall p :: p in MaskedVoxels(mask, n) <==> p.0 < n && p.1 < n && p.2 < n && Selected(mask, p.0, p.1, p.2)
    ensures StrictlyOrdered(MaskedVoxels(mask, n))
  {
    MaskedCubeFacts(mask, n, 0);
  }

  /** A sequence without repetitions has as many elements as its set. */
  lemma {:induction false} DistinctCardinality(s: seq<Voxel>)
    requires StrictlyOrdered(s)
    ensures |set p | p in s| == |s|
    decreases |s|
  {
    if s != [] {
      var rest := s[1..];
      assert StrictlyOrdered(rest) by {
        forall a, b | 0 <= a < b < |rest| ensures Before(rest[a], rest[b]) {
          assert rest[a] == s[a + 1] && rest[b] == s[b + 1];
        }
      }
      DistinctCardinality(rest);
      assert s[0] !in rest by {
        forall b | 0 <= b < |rest| ensures rest[b] != s[0] {
          assert Before(s[0], s[b + 1]);
        }
      }
      assert (set p | p in s) == (set p | p in rest) + {s[0]} by {
        assert s == [s[0]] + rest;
      }
    }
  }

  /** There are as many masked voxels as the mask has true cells. */
  lemma MaskedVoxelsCount(mask: JsValue, n: nat)
    ensures |MaskedVoxels(mask, n)| == |SelectedCells(mask, n)|
  {
    var s := MaskedVoxels(mask, n);
    MaskedVoxelsMeaning(mask, n);
    DistinctCardinality(s);
    assert (set p | p in s) == SelectedCells(mask, n) by {
      forall p | p in SelectedCells(mask, n) ensures p in s {
        var i: nat, j: nat, k: nat :| i < n && j < n && k < n && Selected(mask, i, j, k) && p == (i, j, k);
      }
    }
  }

  // ---------------------------------------------------------------------------
  // The indexing steps of process_pvf_time_window and their exceptions

  /** `v[:, :, :, t]` followed by `np.squeeze`, reduced to the time index it
      reads. The initial value `[]` is a Python list (`None` here), which
      rejects a tuple index; an array needs exactly four axes, a time index in
      `[-extent, extent)` (a negative one counts from the end), and no spatial
      extent 1, which `squeeze` would drop. */
  function TimeSlice(v: Option<JsValue>, t: int): (r: Result<nat, PyError>)
    ensures r.Success? ==> v.Some? && |Shape(v.value)| == 4 && r.value < Shape(v.value)[3]
    ensures r.Success? ==> r.value == (if t < 0 then t + Shape(v.value)[3] else t)
    ensures v.Some? && |Shape(v.value)| == 4 && !(-(Shape(v.value)[3] as int) <= t < Shape(v.value)[3]) ==> r == Failure(IndexError)
  {
    if v.None? then Failure(PyError.TypeError)
    else
      var s := Shape(v.value);
      if |s| < 4 then Failure(IndexError)
      else if |s| > 4 then Failure(PyError.NotModelled)
      else if t < -(s[3] as int) || t >= s[3] then Failure(IndexError)
      else if s[0] == 1 || s[1] == 1 || s[2] == 1 then Failure(PyError.NotModelled)
      else Success(if t < 0 then t + s[3] else t)
  }

  /** A mask array `[d0][d1][d2]` of booleans. */
  predicate BoolCube(m: JsValue, d0: nat, d1: nat, d2: nat) {
    && HasShape(m, [d0, d1, d2])
    && forall i: nat, j: nat, k: nat :: i < d0 && j < d1 && k < d2 ==> At(At(At(m, i), j), k).Bool?
  }

  /** `x[mask_volume]` for an `n`×`n`×`n` index grid `x`, as the list of
      cells it selects. The initial `[]` list selects nothing; a boolean mask
      of another extent raises IndexError; any other mask (integer fancy
      indexing, an empty extent) is outside the model. */
  function MaskCells(mask: Option<JsValue>, n: nat): (r: Result<seq<Voxel>, PyError>)
    ensures mask.Some? && BoolCube(mask.value, n, n, n) && n > 0 ==> r == Success(MaskedVoxels(mask.value, n))
    ensures mask.None? ==> r == Success([])
  {
    if mask.None? then Success([])
    else
      var m := mask.value;
      var s := Shape(m);
      if BoolCube(m, n, n, n) && n > 0 then Success(MaskedVoxels(m, n))
      else if |s| == 3 && s[0] > 0 && s[1] > 0 && s[2] > 0 && BoolCube(m, s[0], s[1], s[2]) then Failure(IndexError)
      else Failure(PyError.NotModelled)
  }

  /** `-dim_shift[i]`: element `i` of a list, which must be a number. */
  function ShiftComponent(dimShift: JsValue, i: nat): (r: Result<real, PyError>)
    ensures r.Success? <==> dimShift.Arr? && i < |dimShift.items| && dimShift.items[i].Num?
    ensures r.Success? ==> r.value == dimShift.items[i].x
    ensures dimShift.Arr? && i >= |dimShift.items| ==> r == Failure(IndexError)
  {
    match dimShift
    case Arr(xs) =>
      if i >= |xs| then Failure(IndexError)
      else if xs[i].Num? then Success(xs[i].x)
      else Failure(PyError.NotModelled)
    case Obj(_) => Failure(KeyError)
    case Text(s) => if i < |s| then Failure(PyError.TypeError) else Failure(IndexError)
    case _ => Failure(PyError.TypeError)
  }

  /** The list `[-dim_shift[0], -dim_shift[1], -dim_shift[2]]`, negated back:
      the shift, evaluated left to right. */
  function Shift(dimShift: JsValue): (r: Result<Position, PyError>)
    ensures r.Success? <==> dimShift.Arr? && |dimShift.items| >= 3
                             && dimShift.items[0].Num? && dimShift.items[1].Num? && dimShift.items[2].Num?
    ensures r.Success? ==> r.value == (dimShift.items[0].x, dimShift.items[1].x, dimShift.items[2].x)
  {
    var a :- ShiftComponent(dimShift, 0);
    var b :- ShiftComponent(dimShift, 1);
    var c :- ShiftComponent(dimShift, 2);
    Success((a, b, c))
  }

  /** A voxel's position: its index moved by `-dim_shift` and scaled by 5. */
  function Place(p: Voxel, shift: Position): Position {
    (((p.0 as real) - shift.0) * 5.0, ((p.1 as real) - shift.1) * 5.0, ((p.2 as real) - shift.2) * 5.0)
  }

  /** The spatial extents of a velocity array are all `n`. */
  predicate SpatialSide(v: Option<JsValue>, n: nat) {
    v.Some? && |Shape(v.value)| == 4 && Shape(v.value)[0] == n && Shape(v.value)[1] == n && Shape(v.value)[2] == n
  }

  /** Row `q` of the frame belongs to the `q`-th cell: its position is the
      cell's index shifted and scaled, its direction the three components at
      that cell and each array's time index. */
  predicate FrameOf(f: Frame, cells: seq<Voxel>, shift: Position,
                    vx: JsValue, vy: JsValue, vz: JsValue, tx: nat, ty: nat, tz: nat)
  {
    && |f.positions| == |cells| && |f.directions| == |cells|
    && (forall q :: 0 <= q < |cells| ==> f.positions[q] == Place(cells[q], shift))
    && (forall q :: 0 <= q < |cells| ==>
          f.directions[q] == (Element(vx, cells[q].0, cells[q].1, cells[q].2, tx),
                              Element(vy, cells[q].0, cells[q].1, cells[q].2, ty),
                              Element(vz, cells[q].0, cells[q].1, cells[q].2, tz)))
  }

  /** The stacked `positions` and `directions` for the selected cells. */
  function MakeFrame(cells: seq<Voxel>, shift: Position, vx: JsValue, vy: JsValue, vz: JsValue, tx: nat, ty: nat, tz: nat): (f: Frame)
    ensures FrameOf(f, cells, shift, vx, vy, vz, tx, ty, tz)
  {
    Frame(seq(|cells|, q requires 0 <= q < |cells| => Place(cells[q], shift)),
          seq(|cells|, q requires 0 <= q < |cells| =>
            (Element(vx, cells[q].0, cells[q].1, cells[q].2, tx),
             Element(vy, cells[q].0, cells[q].1, cells[q].2, ty),
             Element(vz, cells[q].0, cells[q].1, cells[q].2, tz))))
  }

  /** `process_pvf_time_window(t)`, in the order its lines run: the three
      slices, the grid side `N = vx.shape[0]`, the mask applied to the grid,
      the shift, then the mask applied to each slice (shape mismatch raises
      IndexError). The initial `[]` mask selects nothing from anything. */
  function ProcessPvfTimeWindow(mask: Option<JsValue>, vx: Option<JsValue>, vy: Option<JsValue>, vz: Option<JsValue>,
                                dimShift: JsValue, t: int): (r: Result<Frame, PyError>)
    ensures r.Success? ==> |r.value.positions| == |r.value.directions|
  {
    var tx :- TimeSlice(vx, t);
    var ty :- TimeSlice(vy, t);
    var tz :- TimeSlice(vz, t);
    var n := Shape(vx.value)[0];
    var cells :- MaskCells(mask, n);
    var shift :- Shift(dimShift);
    if mask.Some? && !(SpatialSide(vx, n) && SpatialSide(vy, n) && SpatialSide(vz, n)) then Failure(IndexError)
    else Success(MakeFrame(cells, shift, vx.value, vy.value, vz.value, tx, ty, tz))
  }

  /** Three `[N][N][N][T]` volumes, a boolean `N`×`N`×`N` mask and a
      three-number `dim_shift`: every time index in `[-T, T)` yields one row
      per true mask cell, in row-major order, whose position is the cell's
      shifted and scaled index and whose direction is the three components
      at that cell and time (a negative time counts from the end). */
  lemma ProcessPvfTimeWindowMeaning(m: JsValue, vx: JsValue, vy: JsValue, vz: JsValue, dimShift: JsValue,
                                    n: nat, nt: nat, t: int)
    requires n > 1 && BoolCube(m, n, n, n)
    requires HasShape(vx, [n, n, n, nt]) && HasShape(vy, [n, n, n, nt]) && HasShape(vz, [n, n, n, nt])
    requires -(nt as int) <= t < nt
    requires Shift(dimShift).Success?
    ensures var r := ProcessPvfTimeWindow(Some(m), Some(vx), Some(vy), Some(vz), dimShift, t);
            var tt: nat := if t < 0 then t + nt else t;
            && r.Success?
            && |r.value.positions| == |SelectedCells(m, n)|
            && FrameOf(r.value, MaskedVoxels(m, n), Shift(dimShift).value, vx, vy, vz, tt, tt, tt)
  {
    ShapeOfVolume(vx, n, n, n, nt);
    ShapeOfVolume(vy, n, n, n, nt);
    ShapeOfVolume(vz, n, n, n, nt);
    var tt: nat := if t < 0 then t + nt else t;
    assert TimeSlice(Some(vx), t) == Success(tt);
    assert TimeSlice(Some(vy), t) == Success(tt);
    assert TimeSlice(Some(vz), t) == Success(tt);
    assert MaskCells(Some(m), n) == Success(MaskedVoxels(m, n));
    assert SpatialSide(Some(vx), n) && SpatialSide(Some(vy), n) && SpatialSide(Some(vz), n);
    assert ProcessPvfTimeWindow(Some(m), Some(vx), Some(vy), Some(vz), dimShift, t)
        == Success(MakeFrame(MaskedVoxels(m, n), Shift(dimShift).value, vx, vy, vz, tt, tt, tt));
    MaskedVoxelsCount(m, n);
  }

  /** Whatever the inputs, the rows are the cells the mask selects: the
      initial `[]` mask selects none, and otherwise there is one row per true
      cell of the mask, in row-major order. */
  lemma ProcessPvfTimeWindowSelects(mask: Option<JsValue>, vx: Option<JsValue>, vy: Option<JsValue>, vz: Option<JsValue>,
                                    dimShift: JsValue, t: int)
    requires ProcessPvfTimeWindow(mask, vx, vy, vz, dimShift, t).Success?
    ensures var f := ProcessPvfTimeWindow(mask, vx, vy, vz, dimShift, t).value;
            var n := Shape(vx.value)[0];
            && (mask.None? ==> f.positions == [] && f.directions == [])
            && (mask.Some? ==> |f.positions| == |SelectedCells(mask.value, n)| &&
                                f.positions == seq(|f.positions|, q requires 0 <= q < |f.positions| =>
                                                     Place(MaskedVoxels(mask.value, n)[q], Shift(dimShift).value)))
  {
    var n := Shape(vx.value)[0];
    if mask.Some? {
      MaskedVoxelsCount(mask.value, n);
    }
  }

  // ---------------------------------------------------------------------------
  // process_streamlines_time_window

  /** A streamline point: a list of three numbers. */
  predicate IsPoint(p: JsValue) {
    p.Arr? && |p.items| == 3 && p.items[0].Num? && p.items[1].Num? && p.items[2].Num?
  }

  /** A point moved by `-dim_shift` and scaled by 5. */
  function Recentre(p: JsValue, shift: Position): Position
    requires IsPoint(p)
  {
    ((p.items[0].x - shift.0) * 5.0, (p.items[1].x - shift.1) * 5.0, (p.items[2].x - shift.2) * 5.0)
  }

  /** One streamline re-centred: `np.asarray` (ragged raises ValueError), its
      `shape[0]` (a scalar raises IndexError), the shift, then the broadcast
      sum, which an empty streamline fails with ValueError. Points that are not
      three numbers broadcast differently or not at all and are outside the
      model. */
  function RecentreLine(s: JsValue, dimShift: JsValue): Result<seq<Position>, PyError> {
    var arr :- AsArray(s);
    if !arr.Arr? then Failure(IndexError)
    else
      var shift :- Shift(dimShift);
      var pts := arr.items;
      if |pts| == 0 then Failure(ValueError)
      else if forall q :: 0 <= q < |pts| ==> IsPoint(pts[q]) then
        Success(seq(|pts|, q requires 0 <= q < |pts| => Recentre(pts[q], shift)))
      else Failure(PyError.NotModelled)
  }

  /** A re-centred streamline has one point per input point, each the
      re-centring of its own input by the shift; an empty streamline raises
      ValueError. */
  lemma RecentreLineMeaning(s: JsValue, dimShift: JsValue)
    ensures var r := RecentreLine(s, dimShift);
            && (r.Success? ==> s.Arr? && |r.value| == |s.items| > 0 && Shift(dimShift).Success?)
            && (r.Success? ==> forall q :: 0 <= q < |s.items| ==>
                  IsPoint(s.items[q]) && r.value[q] == Recentre(s.items[q], Shift(dimShift).value))
            && (Rectangular(s) && s.Arr? && Shift(dimShift).Success? && |s.items| == 0 ==> r == Failure(ValueError))
  {
  }

  /** Re-centring a list of streamlines in order, stopping at the first one
      that raises. */
  function RecentreAll(lines: seq<JsValue>, dimShift: JsValue): Result<seq<seq<Position>>, PyError>
    decreases |lines|
  {
    if lines == [] then Success([])
    else
      var done :- RecentreAll(lines[..|lines| - 1], dimShift);
      var last :- RecentreLine(lines[|lines| - 1], dimShift);
      Success(done + [last])
  }

  /** On success there is one re-centred streamline per input streamline, each
      the re-centring of its own input; on failure the error is that of the
      first streamline that fails. */
  lemma RecentreAllMeaning(lines: seq<JsValue>, dimShift: JsValue)
    ensures var r := RecentreAll(lines, dimShift);
            && (r.Success? ==>
                  && |r.value| == |lines|
                  && forall q :: 0 <= q < |lines| ==> RecentreLine(lines[q], dimShift) == Success(r.value[q]))
            && (r.Failure? ==>
                  exists q :: && 0 <= q < |lines|
                              && RecentreLine(lines[q], dimShift) == Failure(r.error)
                              && forall p :: 0 <= p < q ==> RecentreLine(lines[p], dimShift).Success?)
  {
    RecentreAllSuccess(lines, dimShift);
    RecentreAllFirstFailure(lines, dimShift);
  }

  lemma {:induction false} RecentreAllSuccess(lines: seq<JsValue>, dimShift: JsValue)
    ensures var r := RecentreAll(lines, dimShift);
            r.Success? ==>
              && |r.value| == |lines|
              && forall q :: 0 <= q < |lines| ==> RecentreLine(lines[q], dimShift) == Success(r.value[q])
    decreases |lines|
  {
    if lines != [] && RecentreAll(lines, dimShift).Success? {
      var init := lines[..|lines| - 1];
      RecentreAllSuccess(init, dimShift);
      var done := RecentreAll(init, dimShift).value;
      var last := RecentreLine(lines[|lines| - 1], dimShift).value;
      var all := done + [last];
      assert RecentreAll(lines, dimShift).value == all;
      forall q | 0 <= q < |lines|
        ensures RecentreLine(lines[q], dimShift) == Success(all[q])
      {
        if q < |init| {
          assert lines[q] == init[q] && all[q] == done[q];
        }
      }
    }
  }

  lemma {:induction false} RecentreAllFirstFailure(lines: seq<JsValue>, dimShift: JsValue)
    ensures var r := RecentreAll(lines, dimShift);
            r.Failure? ==>
              exists q :: && 0 <= q < |lines|
                          && RecentreLine(lines[q], dimShift) == Failure(r.error)
                          && forall p :: 0 <= p < q ==> RecentreLine(lines[p], dimShift).Success?
    decreases |lines|
  {
    if lines != [] && RecentreAll(lines, dimShift).Failure? {
      var init := lines[..|lines| - 1];
      var r := RecentreAll(init, dimShift);
      if r.Failure? {
        RecentreAllFirstFailure(init, dimShift);
        var q :| 0 <= q < |init| && RecentreLine(init[q], dimShift) == Failure(r.error) &&
                 forall p :: 0 <= p < q ==> RecentreLine(init[p], dimShift).Success?;
        FailureInInit(lines, init, dimShift, q);
      } else {
        FailureAtLast(lines, dimShift);
        var n := |lines| - 1;
        assert RecentreLine(lines[n], dimShift) == Failure(RecentreAll(lines, dimShift).error);
      }
    }
  }

  /** A failure among the earlier streamlines is the failure of the whole list. */
  lemma FailureInInit(lines: seq<JsValue>, init: seq<JsValue>, dimShift: JsValue, q: nat)
    requires lines != [] && init == lines[..|lines| - 1] && RecentreAll(init, dimShift).Failure?
    requires q < |init| && RecentreLine(init[q], dimShift) == Failure(RecentreAll(init, dimShift).error)
    requires forall p :: 0 <= p < q ==> RecentreLine(init[p], dimShift).Success?
    ensures RecentreAll(lines, dimShift) == RecentreAll(init, dimShift)
    ensures RecentreLine(lines[q], dimShift) == Failure(RecentreAll(lines, dimShift).error)
    ensures forall p :: 0 <= p < q ==> RecentreLine(lines[p], dimShift).Success?
  {
    assert lines[q] == init[q];
    assert forall p :: 0 <= p < q ==> lines[p] == init[p];
  }

  /** With every earlier streamline re-centred, the failure is the last one's. */
  lemma FailureAtLast(lines: seq<JsValue>, dimShift: JsValue)
    requires lines != [] && RecentreAll(lines[..|lines| - 1], dimShift).Success?
    requires RecentreLine(lines[|lines| - 1], dimShift).Failure?
    ensures RecentreAll(lines, dimShift) == Failure(RecentreLine(lines[|lines| - 1], dimShift).error)
    ensures forall p :: 0 <= p < |lines| - 1 ==> RecentreLine(lines[p], dimShift).Success?
  {
    var init := lines[..|lines| - 1];
    RecentreAllSuccess(init, dimShift);
    assert forall p :: 0 <= p < |init| ==> lines[p] == init[p];
  }

  /** `pvf_streamline_all_time_windows[str(t)]` iterated: a list gives its
      streamlines; an empty dict or string gives none, a non-empty one yields
      keys or characters that `np.asarray` turns into scalars (IndexError);
      other values are not iterable. */
  function StreamlineList(v: JsValue): (r: Result<seq<JsValue>, PyError>)
    ensures v.Arr? ==> r == Success(v.items)
  {
    match v
    case Arr(xs) => Success(xs)
    case Obj(m) => if |m| == 0 then Success([]) else Failure(IndexError)
    case Text(s) => if |s| == 0 then Success([]) else Failure(IndexError)
    case _ => Failure(PyError.TypeError)
  }

  /** What `process_streamlines_time_window(t)` returns; a missing time key
      raises KeyError. */
  function Streamlines(allTimeWindows: JsValue, dimShift: JsValue, t: int): (r: Result<seq<seq<Position>>, PyError>)
    ensures allTimeWindows.Obj? && IntToString(t) !in allTimeWindows.fields ==> r == Failure(KeyError)
  {
    var v :- Subscript(allTimeWindows, IntToString(t));
    var lines :- StreamlineList(v);
    RecentreAll(lines, dimShift)
  }

  /** `process_streamlines_time_window(t)`: the loop that re-centres each
      streamline and appends it. */
  method ProcessStreamlinesTimeWindow(allTimeWindows: JsValue, dimShift: JsValue, t: int)
    returns (r: Result<seq<seq<Position>>, PyError>)
    ensures r == Streamlines(allTimeWindows, dimShift, t)
  {
    var v := Subscript(allTimeWindows, IntToString(t));
    if v.Failure? {
      return Failure(v.error);
    }
    var listed := StreamlineList(v.value);
    if listed.Failure? {
      return Failure(listed.error);
    }
    var lines := listed.value;
    var newStreamlines: seq<seq<Position>> := [];
    var s := 0;
    while s < |lines|
      invariant 0 <= s <= |lines|
      invariant RecentreAll(lines[..s], dimShift) == Success(newStreamlines)
    {
      var line := RecentreLine(lines[s], dimShift);
      RecentreAllStep(lines, s, dimShift, newStreamlines);
      if line.Failure? {
        return Failure(line.error);
      }
      newStreamlines := newStreamlines + [line.value];
      s := s + 1;
    }
    assert lines[..s] == lines;
    r := Success(newStreamlines);
  }

  /** One more streamline re-centred: its points are appended, or its failure
      is the failure of the whole list. */
  lemma RecentreAllStep(lines: seq<JsValue>, s: nat, dimShift: JsValue, done: seq<seq<Position>>)
    requires s < |lines| && RecentreAll(lines[..s], dimShift) == Success(done)
    ensures RecentreLine(lines[s], dimShift).Success? ==>
              RecentreAll(lines[..s + 1], dimShift) == Success(done + [RecentreLine(lines[s], dimShift).value])
    ensures RecentreLine(lines[s], dimShift).Failure? ==>
              RecentreAll(lines, dimShift) == Failure(RecentreLine(lines[s], dimShift).error)
  {
    assert lines[..s + 1][..s] == lines[..s];
    if RecentreLine(lines[s], dimShift).Failure? {
      RecentreAllFailure(lines, s + 1, dimShift);
    }
  }

  /** A failure in a prefix is the failure of the whole list. */
  lemma {:induction false} RecentreAllFailure(lines: seq<JsValue>, k: nat, dimShift: JsValue)
    requires k <= |lines| && RecentreAll(lines[..k], dimShift).Failure?
    ensures RecentreAll(lines, dimShift) == RecentreAll(lines[..k], dimShift)
    decreases |lines| - k
  {
    if k < |lines| {
      var longer := lines[..k + 1];
      assert longer[..|longer| - 1] == lines[..k];
      RecentreAllFailure(lines, k + 1, dimShift);
    } else {
      assert lines[..k] == lines;
    }
  }

  /** Re-centring keeps the number of streamlines and of points per
      streamline, and moves every point by `-dim_shift` and scales it by 5. */
  lemma StreamlinesMeaning(allTimeWindows: JsValue, dimShift: JsValue, t: int)
    requires allTimeWindows.Obj? && IntToString(t) in allTimeWindows.fields
    requires allTimeWindows.fields[IntToString(t)].Arr?
    requires Streamlines(allTimeWindows, dimShift, t).Success?
    ensures var lines := allTimeWindows.fields[IntToString(t)].items;
            var out := Streamlines(allTimeWindows, dimShift, t).value;
            && |out| == |lines|
            && (lines != [] ==> Shift(dimShift).Success?)
            && forall q :: 0 <= q < |lines| ==> RecentredLine(out[q], lines[q], Shift(dimShift))
  {
    var lines := allTimeWindows.fields[IntToString(t)].items;
    RecentreAllMeaning(lines, dimShift);
    var out := Streamlines(allTimeWindows, dimShift, t).value;
    forall q | 0 <= q < |lines| ensures RecentredLine(out[q], lines[q], Shift(dimShift)) {
      assert RecentreLine(lines[q], dimShift) == Success(out[q]);
      RecentreLineMeaning(lines[q], dimShift);
    }
    if lines != [] {
      assert RecentreLine(lines[0], dimShift).Success?;
      RecentreLineMeaning(lines[0], dimShift);
    }
  }

  /** `out` is the streamline `line` with every point re-centred. */
  predicate RecentredLine(out: seq<Position>, line: JsValue, shift: Result<Position, PyError>) {
    && shift.Success? && line.Arr? && |out| == |line.items| > 0
    && forall p :: 0 <= p < |out| ==> IsPoint(line.items[p]) && out[p] == Recentre(line.items[p], shift.value)
  }
}
