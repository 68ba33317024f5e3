/**
 * The action planner of the directory-sync tool (`determine_actions`). It compares two
 * dictionaries from content hash to file name (source and destination) and plans the copies,
 * renames and deletions that make the destination match the source. Walking the folders,
 * hashing the files and carrying the actions out are not modelled: the dictionaries are inputs
 * and the result is the list of planned actions.
 */
module Sync {
  import opened Wrappers

  /** `Path(folder) / name`. */
  datatype Path = Path(folder: string, name: string)

  /** The tuples `("COPY", from, to)`, `("MOVE", from, to)` and `("DELETE", path)`. */
  datatype Action = Copy(from: Path, to: Path) | Move(from: Path, to: Path) | Delete(path: Path)

  /** A dictionary from hash to file name, as its `items()` in insertion order. */
  type Hashes = seq<(string, string)>

  /** A dictionary has each key once. */
  predicate DistinctKeys(m: Hashes) {
    forall i, j :: 0 <= i < j < |m| ==> m[i].0 != m[j].0
  }

  /** `m[h]` when `h in m`, else `None`. */
  function Lookup(m: Hashes, h: string): (r: Option<string>)
    ensures r.None? <==> forall i :: 0 <= i < |m| ==> m[i].0 != h
    ensures r.Some? ==> (h, r.value) in m
    ensures DistinctKeys(m) ==> forall i :: 0 <= i < |m| && m[i].0 == h ==> r == Some(m[i].1)
  {
    if m == [] then None
    else if m[0].0 == h then Some(m[0].1)
    else
      assert DistinctKeys(m) ==> DistinctKeys(m[1..]);
      Lookup(m[1..], h)
  }

  /** A source file needs an action unless the destination holds the same content under the same name. */
  predicate NeedsAction(entry: (string, string), dest: Hashes) {
    Lookup(dest, entry.0) != Some(entry.1)
  }

  /**
   * The action for one source entry: a copy when the destination lacks its hash, a rename when
   * the destination holds its content under another name, nothing when it holds it under the same name.
   */
  function SourceAction(entry: (string, string), dest: Hashes, sourceFolder: string, destFolder: string): (r: Option<Action>)
    ensures r.Some? <==> NeedsAction(entry, dest)
    ensures r.Some? ==> !r.value.Delete?
    ensures Lookup(dest, entry.0).None? ==>
      r == Some(Copy(Path(sourceFolder, entry.1), Path(destFolder, entry.1)))
    ensures Lookup(dest, entry.0).Some? && Lookup(dest, entry.0).value != entry.1 ==>
      r == Some(Move(Path(destFolder, Lookup(dest, entry.0).value), Path(destFolder, entry.1)))
  {
    var (sha, filename) := entry;
    match Lookup(dest, sha)
    case None => Some(Copy(Path(sourceFolder, filename), Path(destFolder, filename)))
    case Some(destName) =>
      if destName != filename then Some(Move(Path(destFolder, destName), Path(destFolder, filename)))
      else None
  }

  /** No planned action is a deletion. */
  predicate NoDeletes(acts: seq<Action>) {
    forall k :: 0 <= k < |acts| ==> !acts[k].Delete?
  }

  /** Every planned action is a deletion. */
  predicate AllDeletes(acts: seq<Action>) {
    forall k :: 0 <= k < |acts| ==> acts[k].Delete?
  }

  /** Once a deletion is planned, only deletions follow. */
  predicate DeletesLast(acts: seq<Action>) {
    forall k, l :: 0 <= k < l < |acts| && acts[k].Delete? ==> acts[l].Delete?
  }

  /** The first loop of `determine_actions`, from the `i`-th source entry on. */
  function SourcePhase(source: Hashes, dest: Hashes, sourceFolder: string, destFolder: string, i: nat): (r: seq<Action>)
    requires i <= |source|
    decreases |source| - i
    ensures NoDeletes(r)
    ensures |r| <= |source| - i
  {
    if i == |source| then []
    else
      match SourceAction(source[i], dest, sourceFolder, destFolder)
      case None => SourcePhase(source, dest, sourceFolder, destFolder, i + 1)
      case Some(a) => [a] + SourcePhase(source, dest, sourceFolder, destFolder, i + 1)
  }

  /** The second loop: delete every destination file whose hash the source lacks, from the `j`-th entry on. */
  function DeletePhase(source: Hashes, dest: Hashes, destFolder: string, j: nat): (r: seq<Action>)
    requires j <= |dest|
    decreases |dest| - j
    ensures AllDeletes(r)
    ensures |r| <= |dest| - j
  {
    if j == |dest| then []
    else if Lookup(source, dest[j].0).None? then [Delete(Path(destFolder, dest[j].1))] + DeletePhase(source, dest, destFolder, j + 1)
    else DeletePhase(source, dest, destFolder, j + 1)
  }

  /** `determine_actions(source_hashes, dest_hashes, source_folder, dest_folder)`. */
  function DetermineActions(source: Hashes, dest: Hashes, sourceFolder: string, destFolder: string): (r: seq<Action>)
    ensures DeletesLast(r)
    ensures |r| <= |source| + |dest|
  {
    SourcePhase(source, dest, sourceFolder, destFolder, 0) + DeletePhase(source, dest, destFolder, 0)
  }

  // ---------------------------------------------------------------------------
  // Causes: which entry each planned action comes from.
  // ---------------------------------------------------------------------------

  /** `cs` lists positions from `i` up to `n`, strictly increasing. */
  ghost predicate Increasing(cs: seq<nat>, i: nat, n: nat) {
    (forall k :: 0 <= k < |cs| ==> i <= cs[k] < n) &&
    (forall k, l :: 0 <= k < l < |cs| ==> cs[k] < cs[l])
  }

  /** The positions, from `i` on and in order, of the source entries that need an action. */
  ghost function SourceCauses(source: Hashes, dest: Hashes, i: nat): (cs: seq<nat>)
    requires i <= |source|
    decreases |source| - i
    ensures Increasing(cs, i, |source|)
    ensures forall n :: i <= n < |source| ==> (n in cs <==> NeedsAction(source[n], dest))
  {
    if i == |source| then []
    else if NeedsAction(source[i], dest) then [i] + SourceCauses(source, dest, i + 1)
    else SourceCauses(source, dest, i + 1)
  }

  /** The positions, from `j` on and in order, of the destination entries whose hash the source lacks. */
  ghost function DeleteCauses(source: Hashes, dest: Hashes, j: nat): (cs: seq<nat>)
    requires j <= |dest|
    decreases |dest| - j
    ensures Increasing(cs, j, |dest|)
    ensures forall n :: j <= n < |dest| ==> (n in cs <==> Lookup(source, dest[n].0).None?)
  {
    if j == |dest| then []
    else if Lookup(source, dest[j].0).None? then [j] + DeleteCauses(source, dest, j + 1)
    else DeleteCauses(source, dest, j + 1)
  }

  /** `acts[k]` is the action planned for source entry `cs[k]`, for every `k`. */
  ghost predicate PlannedForSource(acts: seq<Action>, cs: seq<nat>, source: Hashes, dest: Hashes, sourceFolder: string, destFolder: string) {
    |acts| == |cs| &&
    forall k :: 0 <= k < |cs| ==> cs[k] < |source| && SourceAction(source[cs[k]], dest, sourceFolder, destFolder) == Some(acts[k])
  }

  /** `acts[k]` deletes the file of destination entry `cs[k]`, for every `k`. */
  ghost predicate PlannedForDest(acts: seq<Action>, cs: seq<nat>, dest: Hashes, destFolder: string) {
    |acts| == |cs| &&
    forall k :: 0 <= k < |cs| ==> cs[k] < |dest| && acts[k] == Delete(Path(destFolder, dest[cs[k]].1))
  }

  /**
   * The first loop plans exactly one action per source entry that needs one (`SourceCauses`),
   * that entry's action, in the order of the source dictionary.
   */
  lemma {:induction false} SourcePhaseFollowsSource(source: Hashes, dest: Hashes, sourceFolder: string, destFolder: string, i: nat)
    requires i <= |source|
    decreases |source| - i
    ensures PlannedForSource(SourcePhase(source, dest, sourceFolder, destFolder, i), SourceCauses(source, dest, i),
                             source, dest, sourceFolder, destFolder)
  {
    if i < |source| {
      SourcePhaseFollowsSource(source, dest, sourceFolder, destFolder, i + 1);
      var acts, cs := SourcePhase(source, dest, sourceFolder, destFolder, i + 1), SourceCauses(source, dest, i + 1);
      if NeedsAction(source[i], dest) {
        var a := SourceAction(source[i], dest, sourceFolder, destFolder).value;
        assert SourcePhase(source, dest, sourceFolder, destFolder, i) == [a] + acts;
        assert SourceCauses(source, dest, i) == [i] + cs;
      } else {
        assert SourcePhase(source, dest, sourceFolder, destFolder, i) == acts;
      }
    }
  }

  /**
   * The second loop plans exactly one deletion per destination entry whose hash the source
   * lacks (`DeleteCauses`), of that entry's file, in the order of the destination dictionary.
   */
  lemma {:induction false} DeletePhaseFollowsDest(source: Hashes, dest: Hashes, destFolder: string, j: nat)
    requires j <= |dest|
    decreases |dest| - j
    ensures PlannedForDest(DeletePhase(source, dest, destFolder, j), DeleteCauses(source, dest, j), dest, destFolder)
  {
    if j < |dest| {
      DeletePhaseFollowsDest(source, dest, destFolder, j + 1);
      var acts, cs := DeletePhase(source, dest, destFolder, j + 1), DeleteCauses(source, dest, j + 1);
      if Lookup(source, dest[j].0).None? {
        assert DeletePhase(source, dest, destFolder, j) == [Delete(Path(destFolder, dest[j].1))] + acts;
        assert DeleteCauses(source, dest, j) == [j] + cs;
      } else {
        assert DeletePhase(source, dest, destFolder, j) == acts;
        assert DeleteCauses(source, dest, j) == cs;
      }
    }
  }

  /**
   * The plan as a whole: every copy and rename comes before every deletion, and there are as
   * many actions as source entries needing one plus destination entries the source lacks.
   */
  lemma DetermineActionsPlan(source: Hashes, dest: Hashes, sourceFolder: string, destFolder: string)
    ensures DeletesLast(DetermineActions(source, dest, sourceFolder, destFolder))
    ensures |DetermineActions(source, dest, sourceFolder, destFolder)| ==
      |SourceCauses(source, dest, 0)| + |DeleteCauses(source, dest, 0)|
  {
    SourcePhaseFollowsSource(source, dest, sourceFolder, destFolder, 0);
    DeletePhaseFollowsDest(source, dest, destFolder, 0);
  }

  /** The first loop plans an action exactly when some source entry calls for it. */
  lemma SourcePhaseMembership(source: Hashes, dest: Hashes, sourceFolder: string, destFolder: string, a: Action)
    ensures a in SourcePhase(source, dest, sourceFolder, destFolder, 0) <==>
      exists i :: 0 <= i < |source| && SourceAction(source[i], dest, sourceFolder, destFolder) == Some(a)
  {
    var s, cs := SourcePhase(source, dest, sourceFolder, destFolder, 0), SourceCauses(source, dest, 0);
    SourcePhaseFollowsSource(source, dest, sourceFolder, destFolder, 0);
    if a in s {
      var k :| 0 <= k < |s| && s[k] == a;
      assert SourceAction(source[cs[k]], dest, sourceFolder, destFolder) == Some(a);
    }
    if i :| 0 <= i < |source| && SourceAction(source[i], dest, sourceFolder, destFolder) == Some(a) {
      assert i in cs;
      var k :| 0 <= k < |cs| && cs[k] == i;
      assert s[k] == a;
    }
  }

  /** The second loop plans a deletion exactly for the file of each destination entry whose hash the source lacks. */
  lemma DeletePhaseMembership(source: Hashes, dest: Hashes, destFolder: string, a: Action)
    ensures a in DeletePhase(source, dest, destFolder, 0) <==>
      exists j :: 0 <= j < |dest| && Lookup(source, dest[j].0).None? && a == Delete(Path(destFolder, dest[j].1))
  {
    var d, ds := DeletePhase(source, dest, destFolder, 0), DeleteCauses(source, dest, 0);
    DeletePhaseFollowsDest(source, dest, destFolder, 0);
    if a in d {
      var k :| 0 <= k < |d| && d[k] == a;
      assert Lookup(source, dest[ds[k]].0).None?;
    }
    if j :| 0 <= j < |dest| && Lookup(source, dest[j].0).None? && a == Delete(Path(destFolder, dest[j].1)) {
      assert j in ds;
      var k :| 0 <= k < |ds| && ds[k] == j;
      assert d[k] == a;
    }
  }

  /**
   * An action is planned exactly when some source entry calls for it, or when it deletes the
   * file of a destination entry whose hash the source lacks.
   */
  lemma PlanMembership(source: Hashes, dest: Hashes, sourceFolder: string, destFolder: string, a: Action)
    ensures a in DetermineActions(source, dest, sourceFolder, destFolder) <==>
      (exists i :: 0 <= i < |source| && SourceAction(source[i], dest, sourceFolder, destFolder) == Some(a)) ||
      (exists j :: 0 <= j < |dest| && Lookup(source, dest[j].0).None? && a == Delete(Path(destFolder, dest[j].1)))
  {
    SourcePhaseMembership(source, dest, sourceFolder, destFolder, a);
    DeletePhaseMembership(source, dest, destFolder, a);
    assert DetermineActions(source, dest, sourceFolder, destFolder) ==
      SourcePhase(source, dest, sourceFolder, destFolder, 0) + DeletePhase(source, dest, destFolder, 0);
  }

  /**
   * The copy rule: a copy is planned exactly when some source file's hash is missing from the
   * destination, and it copies that file to the same name in the destination folder.
   */
  lemma CopyPlanned(source: Hashes, dest: Hashes, sourceFolder: string, destFolder: string, a: Action)
    requires a.Copy?
    ensures a in DetermineActions(source, dest, sourceFolder, destFolder) <==>
      exists i :: 0 <= i < |source| && Lookup(dest, source[i].0).None? &&
        a == Copy(Path(sourceFolder, source[i].1), Path(destFolder, source[i].1))
  {
    PlanMembership(source, dest, sourceFolder, destFolder, a);
    if i :| 0 <= i < |source| && SourceAction(source[i], dest, sourceFolder, destFolder) == Some(a) {
      assert Lookup(dest, source[i].0).None?;
    }
  }

  /**
   * The rename rule: a rename is planned exactly when some source file's hash is in the
   * destination under another name, and it renames that destination file to the source name.
   */
  lemma MovePlanned(source: Hashes, dest: Hashes, sourceFolder: string, destFolder: string, a: Action)
    requires a.Move?
    ensures a in DetermineActions(source, dest, sourceFolder, destFolder) <==>
      exists i :: 0 <= i < |source| && Lookup(dest, source[i].0).Some? && Lookup(dest, source[i].0).value != source[i].1 &&
        a == Move(Path(destFolder, Lookup(dest, source[i].0).value), Path(destFolder, source[i].1))
  {
    PlanMembership(source, dest, sourceFolder, destFolder, a);
    if i :| 0 <= i < |source| && SourceAction(source[i], dest, sourceFolder, destFolder) == Some(a) {
      assert Lookup(dest, source[i].0).Some?;
    }
  }

  /** With dictionaries as input (each hash once), no hash is the cause of two actions. */
  lemma OneActionPerHash(source: Hashes, dest: Hashes)
    requires DistinctKeys(source) && DistinctKeys(dest)
    ensures forall k, l :: 0 <= k < l < |SourceCauses(source, dest, 0)| ==>
      source[SourceCauses(source, dest, 0)[k]].0 != source[SourceCauses(source, dest, 0)[l]].0
    ensures forall k, l :: 0 <= k < l < |DeleteCauses(source, dest, 0)| ==>
      dest[DeleteCauses(source, dest, 0)[k]].0 != dest[DeleteCauses(source, dest, 0)[l]].0
  {
  }

  /** A file present in both folders with the same content and name is left alone. */
  lemma UnchangedFileIsLeftAlone(source: Hashes, dest: Hashes, sourceFolder: string, destFolder: string, i: nat)
    requires DistinctKeys(dest)
    requires i < |source| && source[i] in dest
    ensures i !in SourceCauses(source, dest, 0)
  {
    SourcePhaseFollowsSource(source, dest, sourceFolder, destFolder, 0);
    var j :| 0 <= j < |dest| && dest[j] == source[i];
    assert Lookup(dest, source[i].0) == Some(source[i].1);
  }

  /** A file only in the source is copied across under its own name. */
  lemma NewFileIsCopied()
    ensures DetermineActions([("hash1", "fn1")], [], "/src", "/dst") == [Copy(Path("/src", "fn1"), Path("/dst", "fn1"))]
  {
  }

  /** A file renamed in the source is renamed in the destination. */
  lemma RenamedFileIsMoved()
    ensures DetermineActions([("hash1", "fn1")], [("hash1", "fn2")], "/src", "/dst") == [Move(Path("/dst", "fn2"), Path("/dst", "fn1"))]
  {
  }
}
