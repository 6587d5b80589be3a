/** The bookkeeping of the brain-surface viewer (`brain-surface-viewer.js`):
    the reconstructed-surface file name of a subject, the `isLoading` guard of
    the loaders, the three model slots, and the vertex and face totals shown on
    the page. */
module BrainViewer {
  import opened Wrappers
  import opened Strings

  // ---------------------------------------------------------------------------
  // The reconstructed-surface file name

  const FilePrefix: string := "sub-ccepAgeUMCU"
  const FileSuffix: string := "_reconstructed_surface.ply"

  /** `sub-ccepAgeUMCU${id.replace('p', '').padStart(2, '0')}_reconstructed_surface.ply`:
      the first `p` is dropped and the rest padded to two characters. */
  function ReconstructedFileName(subjectId: string): string {
    FilePrefix + PadStart(ReplaceFirst(subjectId, "p", ""), 2, '0') + FileSuffix
  }

  /** For `p` followed by a subject number, the number is padded with one
      leading `0` when it has a single character (`p1` gives `…UMCU01_…`), and
      left as it is when it has two or more (`p35` gives `…UMCU35_…`). */
  lemma ReconstructedFileNameOfNumber(n: string)
    requires |n| >= 1
    ensures ReconstructedFileName("p" + n) == FilePrefix + (if |n| == 1 then "0" + n else n) + FileSuffix
  {
    var id := "p" + n;
    assert OccursAt(id, "p", 0);
    IndexOfSpec(id, "p");
    assert IndexOf(id, "p") == Some(0);
    assert ReplaceFirst(id, "p", "") == n by {
      assert id[..0] + "" + id[1..] == n;
    }
    var padded := PadStart(n, 2, '0');
    if |n| == 1 {
      assert padded == "0" + n;
    }
  }

  /** An identifier without a `p` is only padded. */
  lemma ReconstructedFileNameWithoutP(subjectId: string)
    requires 'p' !in subjectId
    ensures ReconstructedFileName(subjectId) == FilePrefix + PadStart(subjectId, 2, '0') + FileSuffix
  {
    forall i | 0 <= i <= |subjectId|
      ensures !OccursAt(subjectId, "p", i)
    {
      if i < |subjectId| {
        assert subjectId[i] in subjectId;
        assert subjectId[i..i + 1][0] == subjectId[i];
      }
    }
    ReplaceAbsent(subjectId, "p", "");
  }

  // ---------------------------------------------------------------------------
  // Models and their totals

  /** What the loader answers for a surface: its counts, either of which may
      be missing. */
  datatype Model = Model(vertexCount: Option<nat>, faceCount: Option<nat>)

  /** `this.models`: one slot per surface, `null` as `None`. */
  datatype Models = Models(reconstructed: Option<Model>, leftHemisphere: Option<Model>, rightHemisphere: Option<Model>)

  const NoModels: Models := Models(None, None, None)

  /** `Object.values(this.models)`: the slots in insertion order. */
  function Slots(m: Models): seq<Option<Model>> {
    [m.reconstructed, m.leftHemisphere, m.rightHemisphere]
  }

  /** `model.vertexCount || 0` for a present model, and nothing for a null one. */
  function SlotVertices(slot: Option<Model>): nat {
    if slot.Some? && slot.value.vertexCount.Some? then slot.value.vertexCount.value else 0
  }

  function SlotFaces(slot: Option<Model>): nat {
    if slot.Some? && slot.value.faceCount.Some? then slot.value.faceCount.value else 0
  }

  function VertexTotal(slots: seq<Option<Model>>): nat
    decreases |slots|
  {
    if slots == [] then 0 else VertexTotal(slots[..|slots| - 1]) + SlotVertices(slots[|slots| - 1])
  }

  function FaceTotal(slots: seq<Option<Model>>): nat
    decreases |slots|
  {
    if slots == [] then 0 else FaceTotal(slots[..|slots| - 1]) + SlotFaces(slots[|slots| - 1])
  }

  /** The totals are the sums over the three slots, a null slot or a missing
      count adding nothing. */
  lemma ModelTotals(m: Models)
    ensures VertexTotal(Slots(m)) == SlotVertices(m.reconstructed) + SlotVertices(m.leftHemisphere) + SlotVertices(m.rightHemisphere)
    ensures FaceTotal(Slots(m)) == SlotFaces(m.reconstructed) + SlotFaces(m.leftHemisphere) + SlotFaces(m.rightHemisphere)
  {
    var s := Slots(m);
    assert s[..2] == [m.reconstructed, m.leftHemisphere];
    assert s[..2][..1] == [m.reconstructed];
    assert [m.reconstructed][..0] == [];
    assert VertexTotal([m.reconstructed]) == SlotVertices(m.reconstructed);
    assert FaceTotal([m.reconstructed]) == SlotFaces(m.reconstructed);
  }

  /** Without models both totals are zero. */
  lemma NoModelsTotals()
    ensures VertexTotal(Slots(NoModels)) == 0 && FaceTotal(Slots(NoModels)) == 0
  {
    ModelTotals(NoModels);
  }

  /** How one `await this.loader.load…Model(…)` ends. */
  datatype LoadOutcome = Loaded(model: Model) | Rejected

  /** A rejected load falls back to the loader's mock surface. */
  function OrMock(outcome: LoadOutcome, mock: Model): Model {
    if outcome.Loaded? then outcome.model else mock
  }

  /** The models `loadSubject` ends with: the reconstructed surface always,
      each hemisphere only when its checkbox is ticked. */
  function SubjectModels(reconstructed: LoadOutcome, showLeft: bool, left: LoadOutcome, showRight: bool, right: LoadOutcome,
                         mocks: (Model, Model, Model)): (m: Models)
    ensures m.reconstructed.Some?
    ensures m.leftHemisphere.Some? <==> showLeft
    ensures m.rightHemisphere.Some? <==> showRight
    ensures showLeft && left.Loaded? ==> m.leftHemisphere == Some(left.model)
    ensures showRight && right.Loaded? ==> m.rightHemisphere == Some(right.model)
  {
    Models(Some(OrMock(reconstructed, mocks.0)),
           if showLeft then Some(OrMock(left, mocks.1)) else None,
           if showRight then Some(OrMock(right, mocks.2)) else None)
  }

  class BrainSurfaceViewer {
    var isLoading: bool
    var models: Models
    /** The `vertex-count` and `face-count` texts. */
    var shownVertices: nat
    var shownFaces: nat
    /** The `file-name` (and `reconstructed-surface`) text. */
    var fileName: string

    constructor ()
      ensures !isLoading && models == NoModels
      ensures shownVertices == 0 && shownFaces == 0 && fileName == ""
    {
      isLoading := false;
      models := NoModels;
      shownVertices := 0;
      shownFaces := 0;
      fileName := "";
    }

    /** `updateStats`: the totals over the present models are shown. */
    method UpdateStats()
      modifies this`shownVertices, this`shownFaces
      ensures shownVertices == VertexTotal(Slots(models))
      ensures shownFaces == FaceTotal(Slots(models))
    {
      var slots := Slots(models);
      var vertexCount, faceCount := 0, 0;
      var i := 0;
      while i < |slots|
        invariant 0 <= i <= |slots|
        invariant vertexCount == VertexTotal(slots[..i])
        invariant faceCount == FaceTotal(slots[..i])
      {
        assert slots[..i + 1][..i] == slots[..i];
        var model := slots[i];
        if model.Some? {
          vertexCount := vertexCount + (if model.value.vertexCount.Some? then model.value.vertexCount.value else 0);
          faceCount := faceCount + (if model.value.faceCount.Some? then model.value.faceCount.value else 0);
        }
        i := i + 1;
      }
      assert slots[..i] == slots;
      shownVertices, shownFaces := vertexCount, faceCount;
    }

    /** `clearModels`: every slot is emptied and the totals shown drop to 0. */
    method ClearModels()
      modifies this`models, this`shownVertices, this`shownFaces
      ensures models == NoModels
      ensures shownVertices == 0 && shownFaces == 0
    {
      models := NoModels;
      UpdateStats();
      NoModelsTotals();
    }

    /** `loadSubject(subjectId)`. The outcomes of the three loads, the
        checkboxes and the loader's mock surfaces are parameters;
        `throwsAfterClear` stands for an exception the outer `try` catches
        once the models are cleared (a missing page element). While a load is
        in progress the call returns at once; otherwise the `finally` clears
        `isLoading` however the body ends. */
    method LoadSubject(subjectId: string, reconstructed: LoadOutcome, showLeft: bool, left: LoadOutcome,
                       showRight: bool, right: LoadOutcome, mocks: (Model, Model, Model), throwsAfterClear: bool)
      modifies this
      ensures old(isLoading) ==>
                isLoading && models == old(models) && fileName == old(fileName)
                && shownVertices == old(shownVertices) && shownFaces == old(shownFaces)
      ensures !old(isLoading) ==> !isLoading
      ensures !old(isLoading) && throwsAfterClear ==>
                models == NoModels && shownVertices == 0 && shownFaces == 0 && fileName == old(fileName)
      ensures !old(isLoading) && !throwsAfterClear ==>
                && models == SubjectModels(reconstructed, showLeft, left, showRight, right, mocks)
                && fileName == ReconstructedFileName(subjectId)
                && shownVertices == VertexTotal(Slots(models))
                && shownFaces == FaceTotal(Slots(models))
    {
      if isLoading {
        return;
      }
      isLoading := true;
      ClearModels();
      if !throwsAfterClear {
        fileName := ReconstructedFileName(subjectId);
        models := models.(reconstructed := Some(OrMock(reconstructed, mocks.0)));
        if showLeft {
          models := models.(leftHemisphere := Some(OrMock(left, mocks.1)));
        }
        if showRight {
          models := models.(rightHemisphere := Some(OrMock(right, mocks.2)));
        }
        UpdateStats();
      }
      isLoading := false;
    }

    /** `loadCustomOBJFile(file)`: the same guard; the file's model replaces
        the reconstructed surface, and a rejected load is caught with the
        models already cleared. */
    method LoadCustomObjFile(name: string, outcome: LoadOutcome)
      modifies this
      ensures old(isLoading) ==>
                isLoading && models == old(models) && fileName == old(fileName)
                && shownVertices == old(shownVertices) && shownFaces == old(shownFaces)
      ensures !old(isLoading) ==> !isLoading
      ensures !old(isLoading) && outcome.Rejected? ==>
                models == NoModels && shownVertices == 0 && shownFaces == 0 && fileName == old(fileName)
      ensures !old(isLoading) && outcome.Loaded? ==>
                && models == NoModels.(reconstructed := Some(outcome.model))
                && fileName == name
                && shownVertices == SlotVertices(Some(outcome.model))
                && shownFaces == SlotFaces(Some(outcome.model))
    {
      if isLoading {
        return;
      }
      isLoading := true;
      ClearModels();
      if outcome.Loaded? {
        models := models.(reconstructed := Some(outcome.model));
        fileName := name;
        UpdateStats();
        ModelTotals(models);
      }
      isLoading := false;
    }
  }
}
