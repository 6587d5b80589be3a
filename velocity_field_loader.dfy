/** The front end's velocity-field loader (`wx/js/velocity-field-loader.js`):
    `parseCSV`, the reshape of `loadE`, `loadVk`, `loadPotentials`, and
    `processVelocityField`, which combines each point's two basis vectors with
    the coefficients of every time step. */
module VelocityLoader {
  import opened Wrappers
  import opened Strings

  type Vec3 = (real, real, real)

  /** One row of `e`: the point's two tangent basis vectors. */
  datatype Basis = Basis(e1: Vec3, e2: Vec3)

  /** A component of a reconstructed vector, `None` standing for NaN: a
      coefficient read past the end of its row is `undefined`, and every
      product and sum with it is NaN. */
  type Component = Option<real>

  type Vector = (Component, Component, Component)

  // ---------------------------------------------------------------------------
  // parseCSV

  /** `text.trim().split('\n')`. */
  function Lines(text: string): (lines: seq<string>)
    ensures |lines| >= 1
  {
    Split(Trim(text), '\n')
  }

  /** What `parseCSV` keeps of one line: its comma-separated fields without
      the first (index) column, when there are at least two fields. */
  function KeptRow(line: string): seq<seq<string>> {
    var values := Split(line, ',');
    if |values| > 1 then [values[1..]] else []
  }

  /** The rows kept from a run of lines, in order. */
  function CsvRows(lines: seq<string>): seq<seq<string>>
    decreases |lines|
  {
    if lines == [] then [] else CsvRows(lines[..|lines| - 1]) + KeptRow(lines[|lines| - 1])
  }

  /** The positions of the lines with at least two fields, in increasing order. */
  function KeptLines(lines: seq<string>): seq<nat>
    decreases |lines|
  {
    if lines == [] then []
    else KeptLines(lines[..|lines| - 1])
         + (if |Split(lines[|lines| - 1], ',')| > 1 then [|lines| - 1] else [])
  }

  /** The kept rows are, in order, the lines with at least two fields, each
      with its first field dropped, and no other line contributes a row. */
  lemma CsvRowsMeaning(lines: seq<string>)
    ensures var rows := CsvRows(lines);
            var kept := KeptLines(lines);
            && |rows| == |kept| <= |lines|
            && (forall j :: 0 <= j < |kept| ==> kept[j] < |lines| && rows[j] == Split(lines[kept[j]], ',')[1..])
            && (forall j, j' :: 0 <= j < j' < |kept| ==> kept[j] < kept[j'])
            && (forall i :: 0 <= i < |lines| ==> (i in kept <==> |Split(lines[i], ',')| > 1))
  {
    CsvRowsAtKept(lines);
    KeptLinesOrdered(lines);
    KeptLinesMembers(lines);
  }

  /** One more line after the header adds its row when it has one. */
  lemma CsvRowsStep(lines: seq<string>, i: nat)
    requires 1 <= i < |lines|
    ensures CsvRows(lines[1..i + 1]) == CsvRows(lines[1..i]) + KeptRow(lines[i])
  {
    assert lines[1..i + 1][..i - 1] == lines[1..i];
  }

  /** At most one row per line. */
  lemma CsvRowsLength(lines: seq<string>)
    ensures |CsvRows(lines)| <= |lines|
  {
    CsvRowsAtKept(lines);
  }

  lemma {:induction false} CsvRowsAtKept(lines: seq<string>)
    ensures |CsvRows(lines)| == |KeptLines(lines)| <= |lines|
    ensures forall j :: 0 <= j < |KeptLines(lines)| ==>
              KeptLines(lines)[j] < |lines| && CsvRows(lines)[j] == Split(lines[KeptLines(lines)[j]], ',')[1..]
    decreases |lines|
  {
    if lines != [] {
      var init := lines[..|lines| - 1];
      CsvRowsAtKept(init);
      var kept := KeptLines(lines);
      var rows := CsvRows(lines);
      forall j | 0 <= j < |kept|
        ensures kept[j] < |lines| && rows[j] == Split(lines[kept[j]], ',')[1..]
      {
        if j < |KeptLines(init)| {
          assert kept[j] == KeptLines(init)[j];
          assert rows[j] == CsvRows(init)[j];
          assert lines[kept[j]] == init[kept[j]];
        }
      }
    }
  }

  lemma {:induction false} KeptLinesOrdered(lines: seq<string>)
    ensures forall j :: 0 <= j < |KeptLines(lines)| ==> KeptLines(lines)[j] < |lines|
    ensures forall j, j' :: 0 <= j < j' < |KeptLines(lines)| ==> KeptLines(lines)[j] < KeptLines(lines)[j']
    decreases |lines|
  {
    if lines != [] {
      KeptLinesOrdered(lines[..|lines| - 1]);
    }
  }

  lemma {:induction false} KeptLinesMembers(lines: seq<string>)
    ensures forall i :: 0 <= i < |lines| ==> (i in KeptLines(lines) <==> |Split(lines[i], ',')| > 1)
    decreases |lines|
  {
    if lines != [] {
      var init := lines[..|lines| - 1];
      KeptLinesMembers(init);
      KeptLinesOrdered(init);
      forall i | 0 <= i < |lines|
        ensures i in KeptLines(lines) <==> |Split(lines[i], ',')| > 1
      {
        if i < |init| {
          assert lines[i] == init[i];
          assert i != |lines| - 1;
        }
      }
    }
  }

  /** A text of a single line after trimming (a header and nothing else)
      gives no rows. */
  lemma HeaderOnly(text: string)
    requires '\n' !in Trim(text)
    ensures CsvRows(Lines(text)[1..]) == []
  {
    SplitWithout(Trim(text), '\n');
    assert Lines(text)[1..] == [];
  }

  /** Splitting a string without the separator gives the string itself. */
  lemma {:induction false} SplitWithout(s: string, sep: char)
    requires sep !in s
    ensures Split(s, sep) == [s]
    decreases |s|
  {
    if s != [] {
      assert sep !in s[1..] by {
        forall c | c in s[1..] ensures c != sep {
          var i :| 0 <= i < |s[1..]| && s[1..][i] == c;
          assert s[i + 1] == c;
        }
      }
      SplitWithout(s[1..], sep);
      assert [s[0]] + s[1..] == s;
    }
  }

  // ---------------------------------------------------------------------------
  // Coefficients and vectors

  /** `row[i]` as `parseFloat` receives it: a missing field is `undefined`,
      which converts to the text "undefined" (and so parses to NaN). */
  function Field(row: seq<string>, i: nat): string {
    if i < |row| then row[i] else "undefined"
  }

  /** The reshape of `loadE` for one row: columns 0-2 are `e1`, columns 3-5
      `e2`; `num` is `parseFloat`. */
  function BasisOfRow(row: seq<string>, num: string -> real): Basis {
    Basis((num(Field(row, 0)), num(Field(row, 1)), num(Field(row, 2))),
          (num(Field(row, 3)), num(Field(row, 4)), num(Field(row, 5))))
  }

  /** Appending the basis of the next row keeps the loop of `loadE` in step
      with the rows. */
  lemma BasesStep(out: seq<Basis>, rows: seq<seq<string>>, num: string -> real)
    requires |out| < |rows|
    requires forall j :: 0 <= j < |out| ==> out[j] == BasisOfRow(rows[j], num)
    ensures forall j :: 0 <= j <= |out| ==> (out + [BasisOfRow(rows[|out|], num)])[j] == BasisOfRow(rows[j], num)
  {
  }

  /** `row[i]` of a parsed coefficient row: `undefined` past its end. */
  function Coefficient(row: seq<real>, i: nat): Component {
    if i < |row| then Some(row[i]) else None
  }

  /** One coordinate of `e1 * a + e2 * b`. */
  function Combine(x: real, y: real, a: Component, b: Component): Component {
    if a.Some? && b.Some? then Some(x * a.value + y * b.value) else None
  }

  /** The velocity of a point: its two basis vectors weighted by the point's
      two coefficients. */
  function Velocity(b: Basis, a: Component, c: Component): Vector {
    (Combine(b.e1.0, b.e2.0, a, c), Combine(b.e1.1, b.e2.1, a, c), Combine(b.e1.2, b.e2.2, a, c))
  }

  /** The velocities of one time step: point `i` is weighted by `row[i]` and
      `row[i + n]`, `n` being the number of points. */
  predicate VelocitiesOf(out: seq<Vector>, e: seq<Basis>, row: seq<real>) {
    |out| == |e|
    && forall i :: 0 <= i < |e| ==> out[i] == Velocity(e[i], Coefficient(row, i), Coefficient(row, i + |e|))
  }

  /** The velocity of point `i` at a step is a number in every coordinate
      exactly when the step's row reaches index `i + n`. */
  lemma VelocityDefined(out: seq<Vector>, e: seq<Basis>, row: seq<real>, i: nat)
    requires VelocitiesOf(out, e, row) && i < |e|
    ensures out[i].0.Some? && out[i].1.Some? && out[i].2.Some? <==> i + |e| < |row|
    ensures i + |e| < |row| ==>
              && out[i].0.value == e[i].e1.0 * row[i] + e[i].e2.0 * row[i + |e|]
              && out[i].1.value == e[i].e1.1 * row[i] + e[i].e2.1 * row[i + |e|]
              && out[i].2.value == e[i].e1.2 * row[i] + e[i].e2.2 * row[i + |e|]
  {
    assert out[i] == Velocity(e[i], Coefficient(row, i), Coefficient(row, i + |e|));
    if i + |e| < |row| {
      assert Coefficient(row, i) == Some(row[i]) && Coefficient(row, i + |e|) == Some(row[i + |e|]);
    }
  }

  /** `parseFloat` applied to every field of every row. */
  function ParseRows(rows: seq<seq<string>>, num: string -> real): (r: seq<seq<real>>)
    ensures |r| == |rows|
    ensures forall k :: 0 <= k < |r| ==> |r[k]| == |rows[k]|
    ensures forall k, j :: 0 <= k < |r| && 0 <= j < |r[k]| ==> r[k][j] == num(rows[k][j])
  {
    seq(|rows|, k requires 0 <= k < |rows| => seq(|rows[k]|, j requires 0 <= j < |rows[k]| => num(rows[k][j])))
  }

  class VelocityFieldLoader {
    /** The basis vectors of every surface point. */
    var e: Option<seq<Basis>>
    /** The coefficients: one row per time step, `2n` values per row. */
    var vk: Option<seq<seq<real>>>
    var potentials: Option<seq<seq<real>>>

    constructor ()
      ensures e.None? && vk.None? && potentials.None?
    {
      e, vk, potentials := None, None, None;
    }

    /** `parseCSV(text)`: the lines of the trimmed text after the header, each
        split on commas; lines with at most one field are dropped and the first
        field of the others. */
    method ParseCSV(text: string) returns (rows: seq<seq<string>>)
      ensures rows == CsvRows(Lines(text)[1..])
      ensures |rows| <= |Lines(text)| - 1
    {
      var lines := Lines(text);
      rows := [];
      var i := 1;
      while i < |lines|
        invariant 1 <= i <= |lines|
        invariant rows == CsvRows(lines[1..i])
      {
        var values := Split(lines[i], ',');
        if |values| > 1 {
          rows := rows + [values[1..]];
        }
        CsvRowsStep(lines, i);
        i := i + 1;
      }
      assert lines[1..i] == lines[1..];
      CsvRowsLength(lines[1..]);
    }

    /** `loadE(path)`: `text` is the fetched file, `None` when fetching it
        rejects (the loader then answers false and keeps `e`). Every parsed row
        becomes one point's basis, in row order. */
    method LoadE(text: Option<string>, num: string -> real) returns (ok: bool)
      modifies this`e
      ensures ok <==> text.Some?
      ensures text.None? ==> e == old(e)
      ensures text.Some? ==>
                var rows := CsvRows(Lines(text.value)[1..]);
                && e.Some? && |e.value| == |rows|
                && forall i :: 0 <= i < |rows| ==> e.value[i] == BasisOfRow(rows[i], num)
    {
      if text.None? {
        return false;
      }
      var parsed := ParseCSV(text.value);
      var out: seq<Basis> := [];
      var i := 0;
      while i < |parsed|
        invariant 0 <= i <= |parsed|
        invariant |out| == i && forall j :: 0 <= j < i ==> out[j] == BasisOfRow(parsed[j], num)
      {
        BasesStep(out, parsed, num);
        out := out + [BasisOfRow(parsed[i], num)];
        i := i + 1;
      }
      e := Some(out);
      ok := true;
    }

    /** `loadVk(path)`: every field of every parsed row through `parseFloat`. */
    method LoadVk(text: Option<string>, num: string -> real) returns (ok: bool)
      modifies this`vk
      ensures ok <==> text.Some?
      ensures text.None? ==> vk == old(vk)
      ensures text.Some? ==> vk == Some(ParseRows(CsvRows(Lines(text.value)[1..]), num))
    {
      if text.None? {
        return false;
      }
      var parsed := ParseCSV(text.value);
      vk := Some(ParseRows(parsed, num));
      ok := true;
    }

    /** `loadPotentials(path)`: as `loadVk`, into `potentials`. */
    method LoadPotentials(text: Option<string>, num: string -> real) returns (ok: bool)
      modifies this`potentials
      ensures ok <==> text.Some?
      ensures text.None? ==> potentials == old(potentials)
      ensures text.Some? ==> potentials == Some(ParseRows(CsvRows(Lines(text.value)[1..]), num))
    {
      if text.None? {
        return false;
      }
      var parsed := ParseCSV(text.value);
      potentials := Some(ParseRows(parsed, num));
      ok := true;
    }

    /** `processVelocityField()`: null until both files are loaded; otherwise
        one list of `n` velocities per time step, point `i` at step `k` being
        `e[i][0] * vk[k][i] + e[i][1] * vk[k][i + n]`. */
    method ProcessVelocityField() returns (r: Option<seq<seq<Vector>>>)
      ensures r.None? <==> e.None? || vk.None?
      ensures r.Some? ==> |r.value| == |vk.value|
      ensures r.Some? ==> forall k :: 0 <= k < |r.value| ==> VelocitiesOf(r.value[k], e.value, vk.value[k])
    {
      if e.None? || vk.None? {
        return None;
      }
      var basis := e.value;
      var coefficients := vk.value;
      var pointNum := |basis|;
      var pairs := PairCoefficients(coefficients, pointNum);
      var field: seq<seq<Vector>> := [];
      var k := 0;
      while k < |coefficients|
        invariant 0 <= k <= |coefficients|
        invariant |field| == k
        invariant forall kk :: 0 <= kk < k ==> VelocitiesOf(field[kk], basis, coefficients[kk])
      {
        var arrows := CombineStep(basis, pairs[k], coefficients[k]);
        field := field + [arrows];
        k := k + 1;
      }
      r := Some(field);
    }
  }

  /** Each point's pair of coefficients, `(row[i], row[i + n])`. */
  predicate PairsOf(v: seq<(Component, Component)>, row: seq<real>, n: nat) {
    |v| == n && forall i :: 0 <= i < n ==> v[i] == (Coefficient(row, i), Coefficient(row, i + n))
  }

  /** The first loop of `processVelocityField`: `vk` regrouped as one pair
      per point and time step. */
  method PairCoefficients(vk: seq<seq<real>>, n: nat) returns (pairs: seq<seq<(Component, Component)>>)
    ensures |pairs| == |vk|
    ensures forall k :: 0 <= k < |vk| ==> PairsOf(pairs[k], vk[k], n)
  {
    pairs := [];
    var k := 0;
    while k < |vk|
      invariant 0 <= k <= |vk| && |pairs| == k
      invariant forall kk :: 0 <= kk < k ==> PairsOf(pairs[kk], vk[kk], n)
    {
      var row := vk[k];
      var v: seq<(Component, Component)> := [];
      var i := 0;
      while i < n
        invariant 0 <= i <= n && |v| == i
        invariant forall j :: 0 <= j < i ==> v[j] == (Coefficient(row, j), Coefficient(row, j + n))
      {
        v := v + [(Coefficient(row, i), Coefficient(row, i + n))];
        i := i + 1;
      }
      pairs := pairs + [v];
      k := k + 1;
    }
  }

  /** The second loop's body for one time step: `e0 * a + e1 * b` per point. */
  method CombineStep(e: seq<Basis>, pairs: seq<(Component, Component)>, row: seq<real>) returns (out: seq<Vector>)
    requires PairsOf(pairs, row, |e|)
    ensures VelocitiesOf(out, e, row)
  {
    out := [];
    var i := 0;
    while i < |e|
      invariant 0 <= i <= |e| && |out| == i
      invariant forall j :: 0 <= j < i ==> out[j] == Velocity(e[j], Coefficient(row, j), Coefficient(row, j + |e|))
    {
      out := out + [Velocity(e[i], pairs[i].0, pairs[i].1)];
      i := i + 1;
    }
  }
}
