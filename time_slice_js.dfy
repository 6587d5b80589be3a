/** `processPVFTimeWindow` of the JavaScript server: the time-`t` slice of the
    three velocity components, always 50 x 50 x 50 one-element lists, read
    through JavaScript property access from the loaded documents. */
module TimeSliceJs {
  import opened Wrappers
  import opened Strings
  import opened JsValues
  import opened ArrayShape

  /** The loop bound of all three loops; it does not follow `PVF_dimension`. */
  const SliceSide: nat := 50

  type Grid = seq<seq<seq<seq<JsValue>>>>

  /** The three sliced components. */
  datatype Frame = Frame(vx: Grid, vy: Grid, vz: Grid)

  /** `doc[comp][i][j][k][t]` with every step a JavaScript property access, so
      reading through `undefined` or `null` throws. The numeric loop indices
      are keys by their numerals. */
  function Cell(doc: JsValue, comp: string, i: nat, j: nat, k: nat, tkey: string): Result<JsValue, JsError> {
    var a :- Index(doc, comp);
    var b :- IndexNum(a, i);
    var c :- IndexNum(b, j);
    var d :- IndexNum(c, k);
    Index(d, tkey)
  }

  /** The first `n` entries of row `(i, j)` of the slice have been filled:
      entry `k` is the one-element list holding `doc[comp][i][j][k][t]`. */
  predicate RowOf(row: seq<seq<JsValue>>, doc: JsValue, comp: string, i: nat, j: nat, tkey: string, n: nat) {
    |row| == n
    && forall k :: 0 <= k < n ==> Cell(doc, comp, i, j, k, tkey).Success? && row[k] == [Cell(doc, comp, i, j, k, tkey).value]
  }

  /** Appending the next cell keeps a row prefix a row prefix. */
  lemma RowExtend(row: seq<seq<JsValue>>, doc: JsValue, comp: string, i: nat, j: nat, tkey: string, k: nat, c: JsValue)
    requires RowOf(row, doc, comp, i, j, tkey, k) && Cell(doc, comp, i, j, k, tkey) == Success(c)
    ensures RowOf(row + [[c]], doc, comp, i, j, tkey, k + 1)
  {
  }

  predicate PlaneOf(plane: seq<seq<seq<JsValue>>>, doc: JsValue, comp: string, i: nat, tkey: string, n: nat) {
    |plane| == n && forall j :: 0 <= j < n ==> RowOf(plane[j], doc, comp, i, j, tkey, SliceSide)
  }

  predicate CubeOf(cube: Grid, doc: JsValue, comp: string, tkey: string, n: nat) {
    |cube| == n && forall i :: 0 <= i < n ==> PlaneOf(cube[i], doc, comp, i, tkey, SliceSide)
  }

  /** `g` is the full time-`t` slice of component `comp`. */
  predicate IsSlice(g: Grid, doc: JsValue, comp: string, tkey: string) {
    CubeOf(g, doc, comp, tkey, SliceSide)
  }

  predicate CellsOk(vxDoc: JsValue, vyDoc: JsValue, vzDoc: JsValue, tkey: string, i: nat, j: nat, k: nat) {
    Cell(vxDoc, "Vx", i, j, k, tkey).Success?
    && Cell(vyDoc, "Vy", i, j, k, tkey).Success?
    && Cell(vzDoc, "Vz", i, j, k, tkey).Success?
  }

  /** No property access of the three loops throws. */
  predicate SliceDefined(vxDoc: JsValue, vyDoc: JsValue, vzDoc: JsValue, tkey: string) {
    forall i: nat, j: nat, k: nat :: i < SliceSide && j < SliceSide && k < SliceSide ==> CellsOk(vxDoc, vyDoc, vzDoc, tkey, i, j, k)
  }

  /** The loop body: `[PVF_Vx.Vx[i][j][k][t]]` and its two siblings, read in
      that order; the first read that throws ends the slice. */
  method ReadCells(vxDoc: JsValue, vyDoc: JsValue, vzDoc: JsValue, tkey: string, i: nat, j: nat, k: nat)
    returns (r: Result<(JsValue, JsValue, JsValue), JsError>)
    ensures r.Success? <==> CellsOk(vxDoc, vyDoc, vzDoc, tkey, i, j, k)
    ensures r.Success? ==> Cell(vxDoc, "Vx", i, j, k, tkey) == Success(r.value.0)
                           && Cell(vyDoc, "Vy", i, j, k, tkey) == Success(r.value.1)
                           && Cell(vzDoc, "Vz", i, j, k, tkey) == Success(r.value.2)
    ensures r.Failure? ==> r.error == TypeError
  {
    var cx := Cell(vxDoc, "Vx", i, j, k, tkey);
    var cy := Cell(vyDoc, "Vy", i, j, k, tkey);
    var cz := Cell(vzDoc, "Vz", i, j, k, tkey);
    if cx.Success? && cy.Success? && cz.Success? {
      r := Success((cx.value, cy.value, cz.value));
    } else {
      r := Failure(TypeError);
    }
  }

  /** The innermost loop of `processPVFTimeWindow`: row `(i, j)` of all three
      components, or the TypeError of the first access that throws. */
  method FillRows(vxDoc: JsValue, vyDoc: JsValue, vzDoc: JsValue, tkey: string, i: nat, j: nat)
    returns (r: Result<(seq<seq<JsValue>>, seq<seq<JsValue>>, seq<seq<JsValue>>), JsError>)
    ensures r.Success? <==> forall k: nat :: k < SliceSide ==> CellsOk(vxDoc, vyDoc, vzDoc, tkey, i, j, k)
    ensures r.Success? ==> RowOf(r.value.0, vxDoc, "Vx", i, j, tkey, SliceSide)
                           && RowOf(r.value.1, vyDoc, "Vy", i, j, tkey, SliceSide)
                           && RowOf(r.value.2, vzDoc, "Vz", i, j, tkey, SliceSide)
    ensures r.Failure? ==> r.error == TypeError
  {
    var rx: seq<seq<JsValue>>, ry: seq<seq<JsValue>>, rz: seq<seq<JsValue>> := [], [], [];
    var k: nat := 0;
    while k < SliceSide
      invariant k <= SliceSide
      invariant RowOf(rx, vxDoc, "Vx", i, j, tkey, k) && RowOf(ry, vyDoc, "Vy", i, j, tkey, k) && RowOf(rz, vzDoc, "Vz", i, j, tkey, k)
    {
      var c := ReadCells(vxDoc, vyDoc, vzDoc, tkey, i, j, k);
      if c.Failure? {
        return Failure(TypeError);
      }
      var (cx, cy, cz) := c.value;
      RowExtend(rx, vxDoc, "Vx", i, j, tkey, k, cx);
      RowExtend(ry, vyDoc, "Vy", i, j, tkey, k, cy);
      RowExtend(rz, vzDoc, "Vz", i, j, tkey, k, cz);
      rx, ry, rz := rx + [[cx]], ry + [[cy]], rz + [[cz]];
      k := k + 1;
    }
    FilledRows(rx, ry, rz, vxDoc, vyDoc, vzDoc, tkey, i, j);
    r := Success((rx, ry, rz));
  }

  /** Three complete rows mean no access of the row threw. */
  lemma FilledRows(rx: seq<seq<JsValue>>, ry: seq<seq<JsValue>>, rz: seq<seq<JsValue>>,
                   vxDoc: JsValue, vyDoc: JsValue, vzDoc: JsValue, tkey: string, i: nat, j: nat)
    requires RowOf(rx, vxDoc, "Vx", i, j, tkey, SliceSide)
    requires RowOf(ry, vyDoc, "Vy", i, j, tkey, SliceSide)
    requires RowOf(rz, vzDoc, "Vz", i, j, tkey, SliceSide)
    ensures forall k: nat :: k < SliceSide ==> CellsOk(vxDoc, vyDoc, vzDoc, tkey, i, j, k)
  {
  }

  /** The middle loop: plane `i` of all three components. */
  method FillPlanes(vxDoc: JsValue, vyDoc: JsValue, vzDoc: JsValue, tkey: string, i: nat)
    returns (r: Result<(seq<seq<seq<JsValue>>>, seq<seq<seq<JsValue>>>, seq<seq<seq<JsValue>>>), JsError>)
    ensures r.Success? <==> forall j: nat, k: nat :: j < SliceSide && k < SliceSide ==> CellsOk(vxDoc, vyDoc, vzDoc, tkey, i, j, k)
    ensures r.Success? ==> PlaneOf(r.value.0, vxDoc, "Vx", i, tkey, SliceSide)
                           && PlaneOf(r.value.1, vyDoc, "Vy", i, tkey, SliceSide)
                           && PlaneOf(r.value.2, vzDoc, "Vz", i, tkey, SliceSide)
    ensures r.Failure? ==> r.error == TypeError
  {
    var px: seq<seq<seq<JsValue>>>, py: seq<seq<seq<JsValue>>>, pz: seq<seq<seq<JsValue>>> := [], [], [];
    var j: nat := 0;
    while j < SliceSide
      invariant j <= SliceSide
      invariant PlaneOf(px, vxDoc, "Vx", i, tkey, j) && PlaneOf(py, vyDoc, "Vy", i, tkey, j) && PlaneOf(pz, vzDoc, "Vz", i, tkey, j)
      invariant forall b: nat, c: nat :: b < j && c < SliceSide ==> CellsOk(vxDoc, vyDoc, vzDoc, tkey, i, b, c)
    {
      var rows := FillRows(vxDoc, vyDoc, vzDoc, tkey, i, j);
      if rows.Failure? {
        return Failure(TypeError);
      }
      px, py, pz := px + [rows.value.0], py + [rows.value.1], pz + [rows.value.2];
      j := j + 1;
    }
    r := Success((px, py, pz));
  }

  /** `processPVFTimeWindow(t)` over the documents held in `PVF_Vx`, `PVF_Vy`
      and `PVF_Vz`. It throws exactly when some access of the loops reads
      through `undefined` or `null`; otherwise every component is the
      50 x 50 x 50 slice, whatever the recorded dimension. */
  method ProcessPVFTimeWindow(vxDoc: JsValue, vyDoc: JsValue, vzDoc: JsValue, tkey: string) returns (r: Result<Frame, JsError>)
    ensures r.Success? <==> SliceDefined(vxDoc, vyDoc, vzDoc, tkey)
    ensures r.Success? ==> IsSlice(r.value.vx, vxDoc, "Vx", tkey) && IsSlice(r.value.vy, vyDoc, "Vy", tkey) && IsSlice(r.value.vz, vzDoc, "Vz", tkey)
    ensures r.Failure? ==> r.error == TypeError
  {
    var gx: Grid, gy: Grid, gz: Grid := [], [], [];
    var i: nat := 0;
    while i < SliceSide
      invariant i <= SliceSide
      invariant CubeOf(gx, vxDoc, "Vx", tkey, i) && CubeOf(gy, vyDoc, "Vy", tkey, i) && CubeOf(gz, vzDoc, "Vz", tkey, i)
    {
      var planes := FillPlanes(vxDoc, vyDoc, vzDoc, tkey, i);
      if planes.Failure? {
        FailedPlane(vxDoc, vyDoc, vzDoc, tkey, i);
        return Failure(TypeError);
      }
      gx, gy, gz := gx + [planes.value.0], gy + [planes.value.1], gz + [planes.value.2];
      i := i + 1;
    }
    FilledCubes(gx, gy, gz, vxDoc, vyDoc, vzDoc, tkey);
    r := Success(Frame(gx, gy, gz));
  }

  /** A plane with a throwing access makes the whole slice throw. */
  lemma FailedPlane(vxDoc: JsValue, vyDoc: JsValue, vzDoc: JsValue, tkey: string, i: nat)
    requires i < SliceSide
    requires !forall j: nat, k: nat :: j < SliceSide && k < SliceSide ==> CellsOk(vxDoc, vyDoc, vzDoc, tkey, i, j, k)
    ensures !SliceDefined(vxDoc, vyDoc, vzDoc, tkey)
  {
    var j: nat, k: nat :| j < SliceSide && k < SliceSide && !CellsOk(vxDoc, vyDoc, vzDoc, tkey, i, j, k);
  }

  /** Three complete slices mean no access threw. */
  lemma FilledCubes(gx: Grid, gy: Grid, gz: Grid, vxDoc: JsValue, vyDoc: JsValue, vzDoc: JsValue, tkey: string)
    requires IsSlice(gx, vxDoc, "Vx", tkey) && IsSlice(gy, vyDoc, "Vy", tkey) && IsSlice(gz, vzDoc, "Vz", tkey)
    ensures SliceDefined(vxDoc, vyDoc, vzDoc, tkey)
  {
    forall a: nat, b: nat, c: nat | a < SliceSide && b < SliceSide && c < SliceSide
      ensures CellsOk(vxDoc, vyDoc, vzDoc, tkey, a, b, c)
    {
      assert RowOf(gx[a][b], vxDoc, "Vx", a, b, tkey, SliceSide);
      assert RowOf(gy[a][b], vyDoc, "Vy", a, b, tkey, SliceSide);
      assert RowOf(gz[a][b], vzDoc, "Vz", a, b, tkey, SliceSide);
    }
  }

  /** On a rectangular `[x][y][z][t]` volume stored under `comp`, an access
      inside the spatial extents reaches exactly element `[i][j][k][t]`, and an
      unguarded time index past the end reads `undefined`. */
  lemma CellOfVolume(doc: JsValue, comp: string, d0: nat, d1: nat, d2: nat, d3: nat, i: nat, j: nat, k: nat, t: nat)
    requires doc.Obj? && comp in doc.fields && HasShape(doc.fields[comp], [d0, d1, d2, d3])
    requires i < d0 && j < d1 && k < d2
    ensures Cell(doc, comp, i, j, k, NatToString(t)) == Success(Element(doc.fields[comp], i, j, k, t))
    ensures t >= d3 ==> Element(doc.fields[comp], i, j, k, t) == Undefined
  {
    var v := doc.fields[comp];
    assert HasShape(v.items[i], [d1, d2, d3]) by { assert [d0, d1, d2, d3][1..] == [d1, d2, d3]; }
    assert HasShape(v.items[i].items[j], [d2, d3]) by { assert [d1, d2, d3][1..] == [d2, d3]; }
    assert HasShape(v.items[i].items[j].items[k], [d3]) by { assert [d2, d3][1..] == [d3]; }
    IndexArray(v.items[i].items[j].items[k].items, t);
  }

  /** On three rectangular volumes at least 50 wide in every spatial direction
      the slice is defined for every time index, even one past the time count. */
  lemma VolumesSliceDefined(vxDoc: JsValue, vyDoc: JsValue, vzDoc: JsValue, d: nat, e: nat, f: nat, nt: nat, t: nat)
    requires d >= SliceSide && e >= SliceSide && f >= SliceSide
    requires vxDoc.Obj? && "Vx" in vxDoc.fields && HasShape(vxDoc.fields["Vx"], [d, e, f, nt])
    requires vyDoc.Obj? && "Vy" in vyDoc.fields && HasShape(vyDoc.fields["Vy"], [d, e, f, nt])
    requires vzDoc.Obj? && "Vz" in vzDoc.fields && HasShape(vzDoc.fields["Vz"], [d, e, f, nt])
    ensures SliceDefined(vxDoc, vyDoc, vzDoc, NatToString(t))
  {
    forall i: nat, j: nat, k: nat | i < SliceSide && j < SliceSide && k < SliceSide
      ensures CellsOk(vxDoc, vyDoc, vzDoc, NatToString(t), i, j, k)
    {
      CellOfVolume(vxDoc, "Vx", d, e, f, nt, i, j, k, t);
      CellOfVolume(vyDoc, "Vy", d, e, f, nt, i, j, k, t);
      CellOfVolume(vzDoc, "Vz", d, e, f, nt, i, j, k, t);
    }
  }

  /** What the slice of a rectangular volume holds: `g[i][j][k]` is
      `[v[i][j][k][t]]` for a time index inside the volume and `[undefined]`
      past its end (the time index is not checked). */
  lemma SliceOfVolume(g: Grid, doc: JsValue, comp: string, d: nat, e: nat, f: nat, nt: nat, t: nat, i: nat, j: nat, k: nat)
    requires IsSlice(g, doc, comp, NatToString(t))
    requires doc.Obj? && comp in doc.fields && HasShape(doc.fields[comp], [d, e, f, nt])
    requires i < SliceSide && j < SliceSide && k < SliceSide && i < d && j < e && k < f
    ensures |g| == SliceSide && |g[i]| == SliceSide && |g[i][j]| == SliceSide
    ensures g[i][j][k] == [Element(doc.fields[comp], i, j, k, t)]
    ensures t >= nt ==> g[i][j][k] == [Undefined]
  {
    assert PlaneOf(g[i], doc, comp, i, NatToString(t), SliceSide);
    assert RowOf(g[i][j], doc, comp, i, j, NatToString(t), SliceSide);
    CellOfVolume(doc, comp, d, e, f, nt, i, j, k, t);
  }

  // ---------------------------------------------------------------------------
  // arr_average applied to whatever the condA document holds

  /** `arr_average(v)` for any JavaScript value `v`: reading `length` of
      `undefined`/`null` throws; a value whose `length` is 0 (an empty array,
      an empty string, an object whose `length` field is 0) averages to 0; an
      array of numbers has its mean; any other value has no `reduce` function
      and throws, except an array holding non-numbers, which is outside the
      model. */
  function AverageOf(v: JsValue): (r: Result<real, JsError>)
    ensures v.Undefined? || v.Null? ==> r == Failure(TypeError)
    ensures v.Arr? && (forall i :: 0 <= i < |v.items| ==> v.items[i].Num?) ==> r == Success(ArrAverage(Numbers(v.items)))
  {
    match v
    case Arr(xs) =>
      if |xs| == 0 then Success(0.0)
      else if forall i :: 0 <= i < |xs| ==> xs[i].Num? then Success(ArrAverage(Numbers(xs)))
      else Failure(NotModelled)
    case Text(s) => if |s| == 0 then Success(0.0) else Failure(TypeError)
    case Obj(m) => if Get(m, "length") == Num(0.0) then Success(0.0) else Failure(TypeError)
    case _ => Failure(TypeError)
  }
}
