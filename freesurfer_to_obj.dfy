/** The FreeSurfer-to-OBJ converter (`convert_freesurfer_to_obj.py`): the
    lines it writes for one surface, and which hemisphere files of a subject
    it converts, skips or fails on. */
module FreesurferToObj {
  import opened Wrappers
  import opened Strings

  type Vertex = (real, real, real)

  /** Three zero-based vertex indices. */
  type Face = (int, int, int)

  /** What `mne.read_surface` answers: the vertices and the faces. */
  datatype Surface = Surface(vertices: seq<Vertex>, faces: seq<Face>)

  const HeaderLine: string := "# Converted from FreeSurfer surface file"

  function CountsLine(vertexCount: nat, faceCount: nat): string {
    "# Vertices: " + NatToString(vertexCount) + ", Faces: " + NatToString(faceCount)
  }

  /** `f"v {x} {y} {z}"`: the words joined by single spaces; `show` is
      Python's formatting of a float. */
  function VertexLine(v: Vertex, show: real -> string): string {
    Join(["v", show(v.0), show(v.1), show(v.2)], ' ')
  }

  /** `f"f {a+1} {b+1} {c+1}"`: OBJ numbers vertices from 1. */
  function FaceLine(f: Face): string {
    Join(["f", IntToString(f.0 + 1), IntToString(f.1 + 1), IntToString(f.2 + 1)], ' ')
  }

  /** The vertex formatting as a function of the vertex alone. */
  function VertexLineWith(show: real -> string): Vertex -> string {
    v => VertexLine(v, show)
  }

  /** One line per item, in order. */
  function Rendered<T>(xs: seq<T>, line: T -> string): (lines: seq<string>)
    ensures |lines| == |xs|
  {
    seq(|xs|, i requires 0 <= i < |xs| => line(xs[i]))
  }

  /** The lines of the OBJ file, each written with a trailing newline. */
  function ObjLines(s: Surface, show: real -> string): seq<string> {
    [HeaderLine, CountsLine(|s.vertices|, |s.faces|)]
      + Rendered(s.vertices, VertexLineWith(show))
      + Rendered(s.faces, FaceLine)
  }

  /** A face line reads back as the face's indices plus one: split on
      spaces, it is the tag `f` and three integer numerals whose values are
      the one-based indices. */
  lemma FaceLineReadsBack(f: Face)
    ensures var parts := Split(FaceLine(f), ' ');
            && parts == ["f", IntToString(f.0 + 1), IntToString(f.1 + 1), IntToString(f.2 + 1)]
            && ParseInt(parts[1]) == Some(f.0 + 1)
            && ParseInt(parts[2]) == Some(f.1 + 1)
            && ParseInt(parts[3]) == Some(f.2 + 1)
  {
    NoSpaceInNumeral(f.0 + 1);
    NoSpaceInNumeral(f.1 + 1);
    NoSpaceInNumeral(f.2 + 1);
    SplitWords("f", IntToString(f.0 + 1), IntToString(f.1 + 1), IntToString(f.2 + 1));
    ParseIntOfIntToString(f.0 + 1);
    ParseIntOfIntToString(f.1 + 1);
    ParseIntOfIntToString(f.2 + 1);
  }

  /** A vertex line reads back as its tag and the three formatted
      coordinates, when the formatting writes no space. */
  lemma VertexLineReadsBack(v: Vertex, show: real -> string)
    requires forall x: real :: SpaceFree(show(x))
    ensures Split(VertexLine(v, show), ' ') == ["v", show(v.0), show(v.1), show(v.2)]
  {
    var x, y, z := v.0, v.1, v.2;
    assert SpaceFree(show(x)) && SpaceFree(show(y)) && SpaceFree(show(z));
    SplitWords("v", show(x), show(y), show(z));
  }

  predicate SpaceFree(w: string) {
    ' ' !in w
  }

  lemma SplitWords(w0: string, w1: string, w2: string, w3: string)
    requires ' ' !in w0 && ' ' !in w1 && ' ' !in w2 && ' ' !in w3
    ensures Split(Join([w0, w1, w2, w3], ' '), ' ') == [w0, w1, w2, w3]
  {
    SplitJoin([w0, w1, w2, w3], ' ');
  }

  /** Words free of the separator come back from joining and splitting. */
  lemma {:induction false} SplitJoin(parts: seq<string>, sep: char)
    requires |parts| >= 1
    requires forall k :: 0 <= k < |parts| ==> sep !in parts[k]
    ensures Split(Join(parts, sep), sep) == parts
    decreases |parts|
  {
    if |parts| == 1 {
      SplitWithoutSeparator(parts[0], sep);
    } else {
      SplitJoin(parts[1..], sep);
      SplitAfter(parts[0], Join(parts[1..], sep), sep);
      assert [parts[0]] + parts[1..] == parts;
    }
  }

  lemma NoSpaceInNumeral(i: int)
    ensures ' ' !in IntToString(i)
  {
    var n := if i < 0 then -i else i;
    var d := NatToString(n);
    assert forall k :: 0 <= k < |d| ==> d[k] != ' ';
    if i < 0 {
      var r := IntToString(i);
      assert r == "-" + d;
      assert forall k :: 0 <= k < |r| ==> r[k] != ' ' by {
        forall k | 0 <= k < |r| ensures r[k] != ' ' {
          if k > 0 {
            assert r[k] == d[k - 1];
          }
        }
      }
    }
  }

  /** A piece free of the separator, then the separator, splits off as the
      first piece. */
  lemma {:induction false} SplitAfter(a: string, b: string, sep: char)
    requires sep !in a
    ensures Split(a + [sep] + b, sep) == [a] + Split(b, sep)
    decreases |a|
  {
    if a == [] {
      assert a + [sep] + b == [sep] + b;
      assert ([sep] + b)[1..] == b;
    } else {
      var s := a + [sep] + b;
      assert s[1..] == a[1..] + [sep] + b;
      assert sep !in a[1..] by {
        forall k | 0 <= k < |a[1..]| ensures a[1..][k] != sep {
          assert a[1..][k] == a[k + 1];
        }
      }
      SplitAfter(a[1..], b, sep);
      assert [a[0]] + a[1..] == a;
    }
  }

  lemma {:induction false} SplitWithoutSeparator(s: string, sep: char)
    requires sep !in s
    ensures Split(s, sep) == [s]
    decreases |s|
  {
    if s != [] {
      assert sep !in s[1..] by {
        forall k | 0 <= k < |s[1..]| ensures s[1..][k] != sep {
          assert s[1..][k] == s[k + 1];
        }
      }
      SplitWithoutSeparator(s[1..], sep);
      assert [s[0]] + s[1..] == s;
    }
  }

  // ---------------------------------------------------------------------------
  // convert_freesurfer_surface_to_obj

  /** Why a conversion raises: the surface file cannot be read. */
  datatype ConvertError = ReadFailed

  /** `convert_freesurfer_surface_to_obj`: `surface` is what reading the input
      gives (`None` when `mne.read_surface` raises, which is printed and
      raised again); otherwise the lines, appended in order. */
  method ConvertSurface(surface: Option<Surface>, show: real -> string) returns (r: Result<seq<string>, ConvertError>)
    ensures surface.None? <==> r.Failure?
    ensures surface.Some? ==> r == Success(ObjLines(surface.value, show))
  {
    if surface.None? {
      return Failure(ReadFailed);
    }
    var vs, fs := surface.value.vertices, surface.value.faces;
    var lines := WriteLines([HeaderLine, CountsLine(|vs|, |fs|)], vs, VertexLineWith(show));
    lines := WriteLines(lines, fs, FaceLine);
    r := Success(lines);
  }

  /** A `for` loop writing one line per item. */
  method WriteLines<T>(head: seq<string>, xs: seq<T>, line: T -> string) returns (lines: seq<string>)
    ensures lines == head + Rendered(xs, line)
  {
    lines := head;
    var i := 0;
    while i < |xs|
      invariant 0 <= i <= |xs|
      invariant |lines| == |head| + i && lines[..|head|] == head
      invariant forall k :: 0 <= k < i ==> lines[|head| + k] == line(xs[k])
    {
      lines := lines + [line(xs[i])];
      i := i + 1;
    }
  }

  /** The layout of the file: two header lines, the second with the counts;
      then one vertex line per vertex in input order; then one face line per
      face; `2 + |V| + |F|` lines in all. */
  lemma ObjLayout(s: Surface, show: real -> string)
    ensures var lines := ObjLines(s, show);
            && |lines| == 2 + |s.vertices| + |s.faces|
            && lines[0] == HeaderLine && lines[1] == CountsLine(|s.vertices|, |s.faces|)
            && (forall i :: 0 <= i < |s.vertices| ==> lines[2 + i] == VertexLine(s.vertices[i], show))
            && (forall j :: 0 <= j < |s.faces| ==> lines[2 + |s.vertices| + j] == FaceLine(s.faces[j]))
  {
  }

  // ---------------------------------------------------------------------------
  // convert_subject_data

  /** The files the converter can see: the paths that exist, and the surfaces
      of those `mne.read_surface` can read. */
  datatype SurfaceFiles = SurfaceFiles(existing: set<string>, readable: map<string, Surface>)

  /** `f"{data_dir}/{subject_id}/surf/{hemi}.pial"`. */
  function PialPath(dataDir: string, subjectId: string, hemi: string): string {
    dataDir + "/" + subjectId + "/surf/" + hemi + ".pial"
  }

  /** The output path: the input path with `.obj` appended. */
  function ObjPath(input: string): string {
    input + ".obj"
  }

  /** What converting one subject did: the files written with their lines,
      the inputs reported missing, and whether an exception escaped. */
  datatype Conversion = Conversion(written: map<string, seq<string>>, missing: seq<string>, raised: bool)

  /** One hemisphere: a missing input is reported and skipped; an existing
      one is converted, and a failure raises. */
  method ConvertHemisphere(input: string, files: SurfaceFiles, show: real -> string, before: Conversion)
    returns (after: Conversion)
    requires !before.raised
    ensures input !in files.existing ==> after == before.(missing := before.missing + [input])
    ensures input in files.existing && input !in files.readable ==> after == before.(raised := true)
    ensures input in files.existing && input in files.readable ==>
              after == before.(written := before.written[ObjPath(input) := ObjLines(files.readable[input], show)])
  {
    if input !in files.existing {
      return before.(missing := before.missing + [input]);
    }
    var surface := if input in files.readable then Some(files.readable[input]) else None;
    var r := ConvertSurface(surface, show);
    if r.Failure? {
      return before.(raised := true);
    }
    after := before.(written := before.written[ObjPath(input) := r.value]);
  }

  /** `convert_subject_data(subject_id, data_dir)`: the left hemisphere,
      then the right; an exception from the left one ends the call before
      the right one is looked at. */
  method ConvertSubjectData(subjectId: string, dataDir: string, files: SurfaceFiles, show: real -> string)
    returns (c: Conversion)
    ensures var lh := PialPath(dataDir, subjectId, "lh");
            var rh := PialPath(dataDir, subjectId, "rh");
            var lhFails := lh in files.existing && lh !in files.readable;
            var rhFails := rh in files.existing && rh !in files.readable;
            && (c.raised <==> lhFails || rhFails)
            && (ObjPath(lh) in c.written <==> lh in files.existing && lh in files.readable)
            && (ObjPath(rh) in c.written <==> !lhFails && rh in files.existing && rh in files.readable)
            && (forall p :: p in c.written ==> p == ObjPath(lh) || p == ObjPath(rh))
            && (forall p :: p in c.written ==> exists q :: q in files.readable && p == ObjPath(q) && c.written[p] == ObjLines(files.readable[q], show))
            && c.missing == (if lh in files.existing then [] else [lh]) + (if lhFails || rh in files.existing then [] else [rh])
  {
    var lh := PialPath(dataDir, subjectId, "lh");
    var rh := PialPath(dataDir, subjectId, "rh");
    PialPathsDiffer(dataDir, subjectId);
    c := ConvertHemisphere(lh, files, show, Conversion(map[], [], false));
    if c.raised {
      return;
    }
    c := ConvertHemisphere(rh, files, show, c);
  }

  /** The two hemispheres' inputs and outputs are four different paths. */
  lemma PialPathsDiffer(dataDir: string, subjectId: string)
    ensures PialPath(dataDir, subjectId, "lh") != PialPath(dataDir, subjectId, "rh")
    ensures ObjPath(PialPath(dataDir, subjectId, "lh")) != ObjPath(PialPath(dataDir, subjectId, "rh"))
  {
    var prefix := dataDir + "/" + subjectId + "/surf/";
    var lh := PialPath(dataDir, subjectId, "lh");
    var rh := PialPath(dataDir, subjectId, "rh");
    assert lh == prefix + "lh.pial" && rh == prefix + "rh.pial";
    assert lh[|prefix|] == 'l' && rh[|prefix|] == 'r';
    assert ObjPath(lh)[|prefix|] == 'l' && ObjPath(rh)[|prefix|] == 'r';
  }
}
