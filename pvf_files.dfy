/** What both servers share about a subject's files on disk: how a folder
    listing is filtered down to its `.json` files, how paths are joined, how
    each server derives a dataset's sibling files from its metadata file, the
    name of the first streamline time-window file, and the streamline cache
    merge, which both servers perform with the same loop. */
module PvfFiles {
  import opened Wrappers
  import opened Strings
  import opened JsValues

  /** One entry of a directory listing. */
  datatype DirEntry = DirEntry(name: string, isFile: bool)

  /** What the servers can read: the parsed content of every readable JSON
      file, by path (a path that is missing, unreadable or does not parse is
      absent), and the listing of every readable directory. */
  datatype Disk = Disk(files: map<string, JsValue>, dirs: map<string, seq<DirEntry>>)

  /** The value a global holds after a `try` block that re-reads it from `p`:
      the file's content, or the previous value when reading or parsing throws. */
  function Reload(prev: JsValue, disk: Disk, p: string): JsValue {
    if p in disk.files then disk.files[p] else prev
  }

  const MetadataSuffix: string := "_metadata.json"
  const FirstWindowFile: string := "pvf_streamlines_time_window_0_4.json"

  /** A regular file whose name ends in `.json`. */
  predicate IsJsonFile(e: DirEntry) {
    e.isFile && EndsWith(e.name, ".json")
  }

  /** The positions at or after `from` of the `.json` files of a listing, in
      increasing order. */
  function JsonPositions(entries: seq<DirEntry>, from: nat): (r: seq<nat>)
    requires from <= |entries|
    ensures forall k :: 0 <= k < |r| ==> from <= r[k] < |entries| && IsJsonFile(entries[r[k]])
    ensures forall k, l :: 0 <= k < l < |r| ==> r[k] < r[l]
    ensures forall i :: from <= i < |entries| && IsJsonFile(entries[i]) ==> i in r
    decreases |entries| - from
  {
    if from == |entries| then []
    else (if IsJsonFile(entries[from]) then [from] else []) + JsonPositions(entries, from + 1)
  }

  /** The `k`-th name `JsonFiles` gives for the listing from `from` on is the
      name at the `k`-th `.json` position. */
  lemma {:induction false} JsonFilesFrom(entries: seq<DirEntry>, from: nat)
    requires from <= |entries|
    ensures |JsonFiles(entries[from..])| == |JsonPositions(entries, from)|
    ensures forall k :: 0 <= k < |JsonPositions(entries, from)| ==>
              JsonFiles(entries[from..])[k] == entries[JsonPositions(entries, from)[k]].name
    decreases |entries| - from
  {
    if from < |entries| {
      JsonFilesFrom(entries, from + 1);
      JsonFilesCons(entries, from);
      var rest := JsonFiles(entries[from + 1..]);
      var later := JsonPositions(entries, from + 1);
      if IsJsonFile(entries[from]) {
        JsonConsAt([entries[from].name], rest, [from], later, entries);
      } else {
        JsonConsAt([], rest, [], later, entries);
      }
    }
  }

  /** Prefixing a name and its position keeps names and positions in step. */
  lemma JsonConsAt(head: seq<string>, rest: seq<string>, first: seq<nat>, later: seq<nat>, entries: seq<DirEntry>)
    requires |head| == |first| <= 1 && (head != [] ==> first[0] < |entries| && head[0] == entries[first[0]].name)
    requires |rest| == |later|
    requires forall k :: 0 <= k < |later| ==> later[k] < |entries| && rest[k] == entries[later[k]].name
    ensures |head + rest| == |first + later|
    ensures forall k :: 0 <= k < |first + later| ==>
              (first + later)[k] < |entries| && (head + rest)[k] == entries[(first + later)[k]].name
  {
  }

  /** The listing from `from` on starts with the entry at `from`. */
  lemma JsonFilesCons(entries: seq<DirEntry>, from: nat)
    requires from < |entries|
    ensures JsonFiles(entries[from..])
            == (if IsJsonFile(entries[from]) then [entries[from].name] else []) + JsonFiles(entries[from + 1..])
  {
    assert entries[from..][1..] == entries[from + 1..];
  }

  /** `JsonFiles` keeps listing order: its `k`-th name is that of the `k`-th
      `.json` file of the listing, and every `.json` file is there. */
  lemma JsonFilesInOrder(entries: seq<DirEntry>)
    ensures |JsonFiles(entries)| == |JsonPositions(entries, 0)|
    ensures forall k :: 0 <= k < |JsonPositions(entries, 0)| ==>
              JsonFiles(entries)[k] == entries[JsonPositions(entries, 0)[k]].name
  {
    JsonFilesFrom(entries, 0);
    assert entries[0..] == entries;
  }

  /** `path.join(dir, name)` / `os.path.join(dir, name)` for a relative name
      (normalisation of `.` and `..` is not modelled). */
  function PathJoin(dir: string, name: string): string {
    dir + "/" + name
  }

  /** The names of the regular files ending in `.json`, in listing order. */
  function JsonFiles(entries: seq<DirEntry>): (names: seq<string>)
    ensures |names| <= |entries|
    ensures forall n :: n in names <==> DirEntry(n, true) in entries && EndsWith(n, ".json")
  {
    if entries == [] then []
    else
      var rest := JsonFiles(entries[1..]);
      assert forall e :: e in entries <==> e == entries[0] || e in entries[1..];
      if entries[0].isFile && EndsWith(entries[0].name, ".json") then [entries[0].name] + rest
      else rest
  }

  // ---------------------------------------------------------------------------
  // Sibling paths

  /** A sibling file of the metadata file as the JavaScript server derives
      it: the FIRST occurrence of `_metadata.json` in the full path replaced
      by `suffix` (`String.prototype.replace` with a string pattern). */
  function JsSibling(metadataPath: string, suffix: string): string {
    ReplaceFirst(metadataPath, MetadataSuffix, suffix)
  }

  /** The files of one dataset, all derived from the metadata file's path. */
  datatype DatasetPaths = DatasetPaths(
    metadata: string, vx: string, vy: string, vz: string,
    condA: string, pattern: string, streamlines: string)

  /** The derivation of `readPVFJson`: every sibling is the metadata path with
      its first `_metadata.json` replaced. */
  function JsPaths(metadataPath: string): DatasetPaths {
    DatasetPaths(
      metadataPath,
      JsSibling(metadataPath, "_Vx.json"), JsSibling(metadataPath, "_Vy.json"), JsSibling(metadataPath, "_Vz.json"),
      JsSibling(metadataPath, "_condA.json"), JsSibling(metadataPath, "_pattern_detection.json"),
      JsSibling(metadataPath, "_streamlines"))
  }

  /** When `_metadata.json` occurs in the path only as its suffix (the usual
      `<stem>_metadata.json` file in a directory whose name does not contain
      it), every sibling is the stem followed by its own suffix. */
  lemma JsPathsOfStem(metadataPath: string)
    requires UniqueSuffix(metadataPath, MetadataSuffix)
    ensures var stem := metadataPath[..|metadataPath| - |MetadataSuffix|];
            JsPaths(metadataPath) == DatasetPaths(metadataPath, stem + "_Vx.json", stem + "_Vy.json", stem + "_Vz.json",
                                                 stem + "_condA.json", stem + "_pattern_detection.json", stem + "_streamlines")
  {
    ReplaceUniqueSuffix(metadataPath, MetadataSuffix, "_Vx.json");
    ReplaceUniqueSuffix(metadataPath, MetadataSuffix, "_Vy.json");
    ReplaceUniqueSuffix(metadataPath, MetadataSuffix, "_Vz.json");
    ReplaceUniqueSuffix(metadataPath, MetadataSuffix, "_condA.json");
    ReplaceUniqueSuffix(metadataPath, MetadataSuffix, "_pattern_detection.json");
    ReplaceUniqueSuffix(metadataPath, MetadataSuffix, "_streamlines");
  }

  /** A sibling file as the Python server derives it: EVERY occurrence of
      `_metadata.json` replaced (`str.replace`). */
  function PySibling(metadataPath: string, suffix: string): string {
    ReplaceAll(metadataPath, MetadataSuffix, suffix)
  }

  /** The derivation of `read_pvf_json`. */
  function PyPaths(metadataPath: string): DatasetPaths {
    DatasetPaths(
      metadataPath,
      PySibling(metadataPath, "_Vx.json"), PySibling(metadataPath, "_Vy.json"), PySibling(metadataPath, "_Vz.json"),
      PySibling(metadataPath, "_condA.json"), PySibling(metadataPath, "_pattern_detection.json"),
      PySibling(metadataPath, "_streamlines"))
  }

  /** When `_metadata.json` occurs only as the path's suffix, both servers
      derive the same siblings: the stem followed by each sibling's suffix. */
  lemma PyPathsOfStem(metadataPath: string)
    requires UniqueSuffix(metadataPath, MetadataSuffix)
    ensures var stem := metadataPath[..|metadataPath| - |MetadataSuffix|];
            PyPaths(metadataPath) == DatasetPaths(metadataPath, stem + "_Vx.json", stem + "_Vy.json", stem + "_Vz.json",
                                                 stem + "_condA.json", stem + "_pattern_detection.json", stem + "_streamlines")
    ensures PyPaths(metadataPath) == JsPaths(metadataPath)
  {
    JsPathsOfStem(metadataPath);
    ReplaceUniqueSuffix(metadataPath, MetadataSuffix, "_Vx.json");
    ReplaceUniqueSuffix(metadataPath, MetadataSuffix, "_Vy.json");
    ReplaceUniqueSuffix(metadataPath, MetadataSuffix, "_Vz.json");
    ReplaceUniqueSuffix(metadataPath, MetadataSuffix, "_condA.json");
    ReplaceUniqueSuffix(metadataPath, MetadataSuffix, "_pattern_detection.json");
    ReplaceUniqueSuffix(metadataPath, MetadataSuffix, "_streamlines");
  }

  // ---------------------------------------------------------------------------
  // The streamline merge

  /** The documents the merge loop gets through: one per listed file, in order,
      up to the first file that cannot be read or parsed (that failure ends the
      loop with an exception). */
  function ReadablePrefix<V>(folder: string, names: seq<string>, files: map<string, map<string, V>>): (docs: seq<map<string, V>>)
    ensures |docs| <= |names|
    ensures forall i :: 0 <= i < |docs| ==> PathJoin(folder, names[i]) in files && docs[i] == files[PathJoin(folder, names[i])]
    ensures |docs| < |names| ==> PathJoin(folder, names[|docs|]) !in files
  {
    if names == [] then []
    else if PathJoin(folder, names[0]) in files then
      [files[PathJoin(folder, names[0])]] + ReadablePrefix(folder, names[1..], files)
    else []
  }

  /** A readable file at the loop's position is the next document of the prefix. */
  lemma PrefixNext<V>(folder: string, names: seq<string>, files: map<string, map<string, V>>, n: nat)
    requires n < |names| && n <= |ReadablePrefix(folder, names, files)|
    requires PathJoin(folder, names[n]) in files
    ensures n < |ReadablePrefix(folder, names, files)|
    ensures ReadablePrefix(folder, names, files)[n] == files[PathJoin(folder, names[n])]
  {
  }

  /** Merging one more document of a sequence writes its entries. */
  lemma MergeNext<V>(cache: map<string, V>, docs: seq<map<string, V>>, n: nat)
    requires n < |docs|
    ensures MergeAll(cache, docs[..n + 1]) == MergeAll(cache, docs[..n]) + docs[n]
  {
    assert docs[..n + 1] == docs[..n] + [docs[n]];
    MergeAllSnoc(cache, docs[..n], docs[n]);
  }

  /** The loop has read the whole prefix once it meets the end of the
      listing or a file it cannot read. */
  lemma PrefixEnd<V>(folder: string, names: seq<string>, files: map<string, map<string, V>>, n: nat)
    requires n <= |ReadablePrefix(folder, names, files)|
    requires n == |names| || PathJoin(folder, names[n]) !in files
    ensures ReadablePrefix(folder, names, files)[..n] == ReadablePrefix(folder, names, files)
  {
  }

  /** Every entry of every document written into the cache in turn: later
      writes overwrite earlier ones and nothing is ever removed. */
  function MergeAll<V>(cache: map<string, V>, docs: seq<map<string, V>>): map<string, V>
    decreases |docs|
  {
    if docs == [] then cache else MergeAll(cache + docs[0], docs[1..])
  }

  /** The merged cache's keys are the old keys plus every document's keys. */
  lemma {:induction false} MergeAllKeys<V>(cache: map<string, V>, docs: seq<map<string, V>>, k: string)
    ensures k in MergeAll(cache, docs) <==> k in cache || exists i :: 0 <= i < |docs| && k in docs[i]
    decreases |docs|
  {
    if docs != [] {
      MergeAllKeys(cache + docs[0], docs[1..], k);
      if exists i :: 0 <= i < |docs| && k in docs[i] {
        var i :| 0 <= i < |docs| && k in docs[i];
        if i > 0 {
          assert k in docs[1..][i - 1];
        }
      }
      if exists i :: 0 <= i < |docs[1..]| && k in docs[1..][i] {
        var i :| 0 <= i < |docs[1..]| && k in docs[1..][i];
        assert k in docs[i + 1];
      }
    }
  }

  /** A key some document holds ends up with the value of the LAST document
      that holds it. */
  lemma {:induction false} MergeAllLastWins<V>(cache: map<string, V>, docs: seq<map<string, V>>, k: string, i: nat)
    requires i < |docs| && k in docs[i]
    requires forall j :: i < j < |docs| ==> k !in docs[j]
    ensures k in MergeAll(cache, docs) && MergeAll(cache, docs)[k] == docs[i][k]
    decreases |docs|
  {
    if i == 0 {
      MergeAllUntouched(cache + docs[0], docs[1..], k);
    } else {
      forall j | i - 1 < j < |docs[1..]| ensures k !in docs[1..][j] {
        assert docs[1..][j] == docs[j + 1];
      }
      MergeAllLastWins(cache + docs[0], docs[1..], k, i - 1);
    }
  }

  /** A key no document holds keeps its old value, or stays absent: the cache
      is never cleared. */
  lemma {:induction false} MergeAllUntouched<V>(cache: map<string, V>, docs: seq<map<string, V>>, k: string)
    requires forall j :: 0 <= j < |docs| ==> k !in docs[j]
    ensures k in MergeAll(cache, docs) <==> k in cache
    ensures k in cache ==> MergeAll(cache, docs)[k] == cache[k]
    decreases |docs|
  {
    if docs != [] {
      assert k !in docs[0];
      forall j | 0 <= j < |docs[1..]| ensures k !in docs[1..][j] {
        assert docs[1..][j] == docs[j + 1];
      }
      MergeAllUntouched(cache + docs[0], docs[1..], k);
    }
  }

  /** Merging a list of documents is merging its prefix, then its rest; the
      merge loops rely on this to advance one file at a time. */
  lemma {:induction false} MergeAllSnoc<V>(cache: map<string, V>, docs: seq<map<string, V>>, d: map<string, V>)
    ensures MergeAll(cache, docs + [d]) == MergeAll(cache, docs) + d
    decreases |docs|
  {
    if docs == [] {
      assert MergeAll(cache + d, []) == cache + d;
      assert [] + [d] == [d];
    } else {
      assert (docs + [d])[1..] == docs[1..] + [d];
      MergeAllSnoc(cache + docs[0], docs[1..], d);
    }
  }
}
