/**
 * The ordered track library (`MusicAssetStore`): the tracks shown in the list
 * (`musics`), the persisted records behind them (`musicModels`, kept in the
 * same order), and the current selection. File copying and the persistent
 * store are outside the model: each of their outcomes is an input.
 */
module AssetStore {
  import opened Wrappers
  import opened Tracks

  /** A creation timestamp, copied and never computed with. */
  type Date = int

  /** A persisted catalog record (the `MusicAsset` entity). */
  datatype MusicAsset = MusicAsset(createAt: Date, fileName: string, originalName: string)

  /** What copying an imported file into the sandbox yields: its new URL and its original name. */
  datatype SandboxCopy = SandboxCopy(url: Url, originalName: string)

  /** `record` is the persisted form of `music`, as the persistent store writes it on add. */
  predicate Describes(record: MusicAsset, music: Music) {
    record.fileName == music.FileName() && record.originalName == music.originalName
  }

  // ---------------------------------------------------------------------------
  // Neighbour lookup by first occurrence
  // ---------------------------------------------------------------------------

  /** `Array.firstIndex(of:)`. */
  function FirstIndexOf<T(==)>(s: seq<T>, x: T): (r: Option<nat>)
    ensures r.None? <==> x !in s
    ensures r.Some? ==> r.value < |s| && s[r.value] == x && x !in s[..r.value]
  {
    if s == [] then None
    else if s[0] == x then Some(0)
    else match FirstIndexOf(s[1..], x)
      case None => None
      case Some(i) => assert s[1..][..i] == s[1..i + 1]; Some(i + 1)
  }

  /** `x` first occurs in `s` at index `i`. */
  predicate FirstAt<T(==)>(s: seq<T>, x: T, i: int) {
    0 <= i < |s| && s[i] == x && x !in s[..i]
  }

  /** The element after the first occurrence of `x`, if both exist. */
  function NextOf<T(==)>(s: seq<T>, x: T): (r: Option<T>)
    ensures x !in s ==> r == None
    ensures forall i :: FirstAt(s, x, i) ==> r == (if i < |s| - 1 then Some(s[i + 1]) else None)
  {
    match FirstIndexOf(s, x)
    case None => None
    case Some(i) =>
      if i < |s| - 1 then Some(s[i + 1]) else None
  }

  /** The element before the first occurrence of `x`, if both exist. */
  function PrevOf<T(==)>(s: seq<T>, x: T): (r: Option<T>)
    ensures x !in s ==> r == None
    ensures forall i :: FirstAt(s, x, i) ==> r == (if i > 0 then Some(s[i - 1]) else None)
  {
    match FirstIndexOf(s, x)
    case None => None
    case Some(i) =>
      if i > 0 then Some(s[i - 1]) else None
  }

  /** No track appears twice. */
  predicate Distinct<T(==)>(s: seq<T>) {
    forall i, j :: 0 <= i < j < |s| ==> s[i] != s[j]
  }

  /** In a library without duplicates, "next" and "previous" undo each other. */
  lemma NextPrevInverse<T>(s: seq<T>, x: T, y: T)
    requires Distinct(s)
    ensures NextOf(s, x) == Some(y) <==> PrevOf(s, y) == Some(x)
  {
    forall i | 0 <= i < |s|
      ensures FirstAt(s, s[i], i)
    {
    }
    if NextOf(s, x) == Some(y) {
      var i := FirstIndexOf(s, x).value;
      assert FirstAt(s, y, i + 1);
    }
    if PrevOf(s, y) == Some(x) {
      var i := FirstIndexOf(s, y).value;
      assert FirstAt(s, x, i - 1);
    }
  }

  /** With a duplicate, lookup starts from the first copy: the next of the second copy is the first's. */
  lemma DuplicateLookupUsesFirstCopy(a: Music, b: Music, c: Music)
    requires a != b && a != c
    ensures NextOf([a, b, a, c], a) == Some(b)
    ensures PrevOf([b, a, c, a], a) == Some(b)
  {
    assert FirstAt([a, b, a, c], a, 0);
    assert FirstAt([b, a, c, a], a, 1) by { assert [b, a, c, a][..1] == [b]; }
  }

  // ---------------------------------------------------------------------------
  // Deletion by offsets
  // ---------------------------------------------------------------------------

  /** `Array.remove(at:)`. */
  function RemoveAt<T>(xs: seq<T>, i: nat): (r: seq<T>)
    requires i < |xs|
    ensures |r| == |xs| - 1
    ensures forall j :: 0 <= j < i ==> r[j] == xs[j]
    ensures forall j :: i <= j < |r| ==> r[j] == xs[j + 1]
  {
    xs[..i] + xs[i + 1..]
  }

  /** `IndexSet` hands its offsets out in strictly ascending order. */
  predicate Ascending(offsets: seq<nat>) {
    forall i, j :: 0 <= i < j < |offsets| ==> offsets[i] < offsets[j]
  }

  /** The number of persistence deletes that succeeded. */
  function CountDeleted(deleted: seq<bool>): (n: nat)
    ensures n <= |deleted|
  {
    if deleted == [] then 0 else (if deleted[0] then 1 else 0) + CountDeleted(deleted[1..])
  }

  /**
   * Each offset indexes the arrays as they are at its turn: a length that
   * shrinks by one after each successful delete.
   */
  predicate InRangeAtTurn(n: nat, offsets: seq<nat>, deleted: seq<bool>)
    requires |offsets| == |deleted|
  {
    offsets == [] ||
    (offsets[0] < n && InRangeAtTurn(if deleted[0] then n - 1 else n, offsets[1..], deleted[1..]))
  }

  /**
   * The `for offset in offsets` loop of `deleteMusic`: each offset, in turn,
   * is removed from the array already shortened by the earlier removals,
   * unless its persistence delete failed.
   */
  function RemoveEach<T>(xs: seq<T>, offsets: seq<nat>, deleted: seq<bool>): (r: seq<T>)
    requires |offsets| == |deleted| && InRangeAtTurn(|xs|, offsets, deleted)
    ensures |r| == |xs| - CountDeleted(deleted)
    decreases |offsets|
  {
    if offsets == [] then xs
    else RemoveEach(if deleted[0] then RemoveAt(xs, offsets[0]) else xs, offsets[1..], deleted[1..])
  }

  /** One turn of the loop: the offset in turn is in range, and the rest of the run continues from the result. */
  lemma RemoveEachStep<T>(xs: seq<T>, offsets: seq<nat>, deleted: seq<bool>, i: nat)
    requires |offsets| == |deleted| && i < |offsets|
    requires InRangeAtTurn(|xs|, offsets[i..], deleted[i..])
    ensures offsets[i] < |xs|
    ensures var xs' := if deleted[i] then RemoveAt(xs, offsets[i]) else xs;
      && InRangeAtTurn(|xs'|, offsets[i + 1..], deleted[i + 1..])
      && RemoveEach(xs', offsets[i + 1..], deleted[i + 1..]) == RemoveEach(xs, offsets[i..], deleted[i..])
  {
    assert offsets[i..][1..] == offsets[i + 1..];
    assert deleted[i..][1..] == deleted[i + 1..];
  }

  /** Deleting from two arrays that correspond pointwise keeps them corresponding. */
  lemma {:induction false} RemoveEachKeepsCorrespondence(
    ms: seq<Music>, rs: seq<MusicAsset>, offsets: seq<nat>, deleted: seq<bool>)
    requires |ms| == |rs| && |offsets| == |deleted| && InRangeAtTurn(|ms|, offsets, deleted)
    requires forall i :: 0 <= i < |ms| ==> Describes(rs[i], ms[i])
    ensures |RemoveEach(ms, offsets, deleted)| == |RemoveEach(rs, offsets, deleted)|
    ensures forall i :: 0 <= i < |RemoveEach(ms, offsets, deleted)| ==>
      Describes(RemoveEach(rs, offsets, deleted)[i], RemoveEach(ms, offsets, deleted)[i])
    decreases |offsets|
  {
    if offsets != [] {
      var ms', rs' := ms, rs;
      if deleted[0] {
        ms', rs' := RemoveAt(ms, offsets[0]), RemoveAt(rs, offsets[0]);
      }
      RemoveEachKeepsCorrespondence(ms', rs', offsets[1..], deleted[1..]);
    }
  }

  // The evidently intended deletion: remove the rows at the offsets as they
  // were numbered when the user chose them.

  /** The elements of `xs` whose index is not in `gone`, in order. */
  function Without<T>(xs: seq<T>, gone: set<int>): (r: seq<T>)
    ensures |r| <= |xs|
    decreases |xs|
  {
    if xs == [] then []
    else Without(xs[..|xs| - 1], gone) + (if |xs| - 1 in gone then [] else [xs[|xs| - 1]])
  }

  /** The offsets whose persistence delete succeeded. */
  function Succeeded(offsets: seq<nat>, deleted: seq<bool>): (gone: set<int>)
    requires |offsets| == |deleted|
    ensures forall i :: i in gone ==> i in offsets
    decreases |offsets|
  {
    if offsets == [] then {}
    else
      var k := |offsets| - 1;
      Succeeded(offsets[..k], deleted[..k]) + (if deleted[k] then {offsets[k] as int} else {})
  }

  /** `Without` only looks at the indices of `xs`. */
  lemma {:induction false} WithoutSameBelow<T>(xs: seq<T>, a: set<int>, b: set<int>)
    requires forall i :: 0 <= i < |xs| ==> (i in a <==> i in b)
    ensures Without(xs, a) == Without(xs, b)
    decreases |xs|
  {
    if xs != [] {
      WithoutSameBelow(xs[..|xs| - 1], a, b);
    }
  }

  /** Removed indices all below `k` leave the elements from `k` on untouched. */
  lemma {:induction false} WithoutSplit<T>(xs: seq<T>, gone: set<int>, k: nat)
    requires k <= |xs|
    requires forall i :: i in gone ==> i < k
    ensures Without(xs, gone) == Without(xs[..k], gone) + xs[k..]
    decreases |xs| - k
  {
    if k == |xs| {
      assert xs[..k] == xs;
    } else {
      var n := |xs| - 1;
      WithoutSplit(xs[..n], gone, k);
      assert xs[..n][..k] == xs[..k];
      assert xs[..n][k..] + [xs[n]] == xs[k..];
    }
  }

  /** Removing row `o` before any lower row is the same as marking `o` gone. */
  lemma WithoutRemoveAt<T>(xs: seq<T>, below: set<int>, o: nat)
    requires o < |xs|
    requires forall i :: i in below ==> i < o
    ensures Without(RemoveAt(xs, o), below) == Without(xs, below + {o})
  {
    var xs' := RemoveAt(xs, o);
    WithoutSplit(xs', below, o);
    assert xs'[..o] == xs[..o];
    assert xs'[o..] == xs[o + 1..];
    WithoutSplit(xs, below + {o}, o + 1);
    var prefix := xs[..o + 1];
    assert prefix[..o] == xs[..o];
    assert Without(prefix, below + {o}) == Without(xs[..o], below + {o});
    WithoutSameBelow(xs[..o], below + {o}, below);
  }

  /** In ascending offsets, every earlier success lies below the last offset. */
  lemma SucceededBelowLast(offsets: seq<nat>, deleted: seq<bool>, k: nat)
    requires |offsets| == |deleted| == k + 1 && Ascending(offsets)
    ensures forall i :: i in Succeeded(offsets[..k], deleted[..k]) ==> i < offsets[k]
  {
    forall i | i in Succeeded(offsets[..k], deleted[..k])
      ensures i < offsets[k]
    {
      var j :| 0 <= j < k && offsets[..k][j] == i;
    }
  }

  /**
   * The loop run over the offsets in descending order (`offsets.reversed()`):
   * later rows go first, so every offset still names the row it named when
   * the user chose it.
   */
  function RemoveFromBack<T>(xs: seq<T>, offsets: seq<nat>, deleted: seq<bool>): (r: seq<T>)
    requires |offsets| == |deleted| && Ascending(offsets)
    requires forall i :: 0 <= i < |offsets| ==> offsets[i] < |xs|
    ensures r == Without(xs, Succeeded(offsets, deleted))
    decreases |offsets|
  {
    if offsets == [] then
      WithoutSplit(xs, {}, 0);
      xs
    else
      var k := |offsets| - 1;
      SucceededBelowLast(offsets, deleted, k);
      if deleted[k] then
        WithoutRemoveAt(xs, Succeeded(offsets[..k], deleted[..k]), offsets[k]);
        RemoveFromBack(RemoveAt(xs, offsets[k]), offsets[..k], deleted[..k])
      else
        assert Succeeded(offsets, deleted) == Succeeded(offsets[..k], deleted[..k]);
        RemoveFromBack(xs, offsets[..k], deleted[..k])
  }

  /** One turn of the descending loop: the rest of the run continues from the result. */
  lemma RemoveFromBackStep<T>(xs: seq<T>, offsets: seq<nat>, deleted: seq<bool>, i: nat)
    requires |offsets| == |deleted| && i < |offsets| && Ascending(offsets)
    requires forall j :: 0 <= j <= i ==> offsets[j] < |xs|
    ensures Ascending(offsets[..i]) && Ascending(offsets[..i + 1])
    ensures var xs' := if deleted[i] then RemoveAt(xs, offsets[i]) else xs;
      && (forall j :: 0 <= j < i ==> offsets[j] < |xs'|)
      && RemoveFromBack(xs', offsets[..i], deleted[..i]) == RemoveFromBack(xs, offsets[..i + 1], deleted[..i + 1])
  {
    assert offsets[..i + 1][..i] == offsets[..i];
    assert deleted[..i + 1][..i] == deleted[..i];
  }

  /** Removing the same rows from two arrays that correspond pointwise keeps them corresponding. */
  lemma {:induction false} WithoutKeepsCorrespondence(ms: seq<Music>, rs: seq<MusicAsset>, gone: set<int>)
    requires |ms| == |rs|
    requires forall i :: 0 <= i < |ms| ==> Describes(rs[i], ms[i])
    ensures |Without(ms, gone)| == |Without(rs, gone)|
    ensures forall i :: 0 <= i < |Without(ms, gone)| ==> Describes(Without(rs, gone)[i], Without(ms, gone)[i])
    decreases |ms|
  {
    if ms != [] {
      var n := |ms| - 1;
      WithoutKeepsCorrespondence(ms[..n], rs[..n], gone);
    }
  }

  /**
   * As written, the ascending loop removes the wrong rows as soon as two
   * offsets are chosen: rows 0 and 1 of [a, b, c] take away a and c, and
   * rows 1 and 2 run past the end of the array at the second offset.
   */
  lemma AscendingDeleteShiftsLaterOffsets(a: Music, b: Music, c: Music)
    ensures InRangeAtTurn(3, [0, 1], [true, true])
    ensures RemoveEach([a, b, c], [0, 1], [true, true]) == [b]
    ensures Without([a, b, c], Succeeded([0, 1], [true, true])) == [c]
    ensures !InRangeAtTurn(3, [1, 2], [true, true])
  {
    assert RemoveAt([a, b, c], 0) == [b, c];
    assert RemoveAt([b, c], 1) == [b];
    assert Succeeded([0, 1], [true, true]) == {0, 1} by {
      assert [0, 1][..1] == [0] && [true, true][..1] == [true];
      var single: seq<nat> := [0];
      assert single[..0] == [];
    }
    assert [a, b, c][..2] == [a, b] && [a, b][..1] == [a] && [a][..0] == [];
    assert Without([a], {0, 1}) == [];
    assert Without([a, b], {0, 1}) == [];
    assert Without([a, b, c], {0, 1}) == [c];
  }

  // ---------------------------------------------------------------------------
  // The store
  // ---------------------------------------------------------------------------

  class MusicAssetStore {
    var musics: seq<Music>
    var musicModels: seq<MusicAsset>
    var selectedMusic: string
    var selectedMusicAsset: Option<Music>

    /** The two arrays run in parallel: row i of the list is persisted as record i. */
    ghost predicate Valid()
      reads this
    {
      |musics| == |musicModels| &&
      forall i :: 0 <= i < |musics| ==> Describes(musicModels[i], musics[i])
    }

    /** The initial state, before the persisted records are loaded. */
    constructor ()
      ensures Valid()
      ensures musics == [] && musicModels == []
      ensures selectedMusic == "" && selectedMusicAsset == None
    {
      musics, musicModels := [], [];
      selectedMusic, selectedMusicAsset := "", None;
    }

    /**
     * The load started by the initialiser: the fetched records replace both
     * arrays, each track located under the documents directory by its stored
     * file name. A nil result changes nothing; a failed fetch yields `[]`,
     * which this treats as an empty library.
     */
    method Restore(documents: Url, fetched: Option<seq<MusicAsset>>)
      requires Valid()
      requires fetched.Some? ==> forall k :: 0 <= k < |fetched.value| ==> '/' !in fetched.value[k].fileName
      modifies this
      ensures Valid()
      ensures fetched.None? ==> musics == old(musics) && musicModels == old(musicModels)
      ensures fetched.Some? ==> musicModels == fetched.value && |musics| == |fetched.value|
      ensures fetched.Some? ==> forall k :: 0 <= k < |musics| ==>
        musics[k] == Music(AppendingPathComponent(documents, fetched.value[k].fileName), fetched.value[k].originalName)
      ensures selectedMusic == old(selectedMusic) && selectedMusicAsset == old(selectedMusicAsset)
    {
      if fetched.None? {
        return;
      }
      var records := fetched.value;
      musicModels := records;
      musics := seq(|records|, k requires 0 <= k < |records| =>
        Music(AppendingPathComponent(documents, records[k].fileName), records[k].originalName));
      forall k | 0 <= k < |records|
        ensures Describes(musicModels[k], musics[k])
      {
        LastComponentOfAppended(documents, records[k].fileName);
      }
    }

    /**
     * `addMusic`: the copied file becomes a track; once its record is saved,
     * both arrays grow by one at the end. A failed copy or save changes nothing.
     */
    method AddMusic(copied: Option<SandboxCopy>, savedAt: Option<Date>)
      requires Valid()
      modifies this
      ensures Valid()
      ensures copied.None? || savedAt.None? ==>
        musics == old(musics) && musicModels == old(musicModels)
      ensures copied.Some? && savedAt.Some? ==>
        musics == old(musics) + [Music(copied.value.url, copied.value.originalName)] &&
        musicModels == old(musicModels) + [MusicAsset(savedAt.value, LastPathComponent(copied.value.url.path), copied.value.originalName)]
      ensures selectedMusic == old(selectedMusic) && selectedMusicAsset == old(selectedMusicAsset)
    {
      if copied.None? {
        return;
      }
      var music := Music(copied.value.url, copied.value.originalName);
      if savedAt.None? {
        return;
      }
      var record := MusicAsset(savedAt.value, music.FileName(), music.originalName);
      ghost var n := |musics|;
      musicModels := musicModels + [record];
      musics := musics + [music];
      forall i | 0 <= i < |musics|
        ensures Describes(musicModels[i], musics[i])
      {
        if i < n {
          assert musics[i] == old(musics)[i] && musicModels[i] == old(musicModels)[i];
        }
      }
    }

    /**
     * `deleteMusic(offsets:)`: the offsets are taken in ascending order, each
     * against the arrays as already shortened; `deleted[i]` is whether the
     * persistent store deleted the record at the i-th offset (a failure skips
     * that offset).
     */
    method DeleteMusic(offsets: seq<nat>, deleted: seq<bool>)
      requires Valid()
      requires |offsets| == |deleted| && Ascending(offsets)
      requires InRangeAtTurn(|musics|, offsets, deleted)
      modifies this`musics, this`musicModels
      ensures Valid()
      ensures musics == RemoveEach(old(musics), offsets, deleted)
      ensures musicModels == RemoveEach(old(musicModels), offsets, deleted)
    {
      var i := 0;
      while i < |offsets|
        invariant 0 <= i <= |offsets|
        invariant |musics| == |musicModels|
        invariant InRangeAtTurn(|musics|, offsets[i..], deleted[i..])
        invariant RemoveEach(musics, offsets[i..], deleted[i..]) == RemoveEach(old(musics), offsets, deleted)
        invariant RemoveEach(musicModels, offsets[i..], deleted[i..]) == RemoveEach(old(musicModels), offsets, deleted)
      {
        var offset := offsets[i];
        RemoveEachStep(musics, offsets, deleted, i);
        RemoveEachStep(musicModels, offsets, deleted, i);
        if deleted[i] {
          musics := RemoveAt(musics, offset);
          musicModels := RemoveAt(musicModels, offset);
        }
        i := i + 1;
      }
      RemoveEachKeepsCorrespondence(old(musics), old(musicModels), offsets, deleted);
    }

    /**
     * The evidently intended `deleteMusic(offsets:)`: the same loop over the
     * offsets in descending order, so that each offset still names the row
     * the user chose; exactly the rows whose persistence delete succeeded go.
     */
    method DeleteMusicFromBack(offsets: seq<nat>, deleted: seq<bool>)
      requires Valid()
      requires |offsets| == |deleted| && Ascending(offsets)
      requires forall i :: 0 <= i < |offsets| ==> offsets[i] < |musics|
      modifies this`musics, this`musicModels
      ensures Valid()
      ensures musics == Without(old(musics), Succeeded(offsets, deleted))
      ensures musicModels == Without(old(musicModels), Succeeded(offsets, deleted))
    {
      var i := |offsets|;
      assert offsets[..i] == offsets && deleted[..i] == deleted;
      while i > 0
        invariant 0 <= i <= |offsets|
        invariant |musics| == |musicModels|
        invariant forall j :: 0 <= j < i ==> offsets[j] < |musics|
        invariant Ascending(offsets[..i])
        invariant RemoveFromBack(musics, offsets[..i], deleted[..i]) == RemoveFromBack(old(musics), offsets, deleted)
        invariant RemoveFromBack(musicModels, offsets[..i], deleted[..i]) == RemoveFromBack(old(musicModels), offsets, deleted)
      {
        i := i - 1;
        var offset := offsets[i];
        RemoveFromBackStep(musics, offsets, deleted, i);
        RemoveFromBackStep(musicModels, offsets, deleted, i);
        if deleted[i] {
          musics := RemoveAt(musics, offset);
          musicModels := RemoveAt(musicModels, offset);
        }
      }
      WithoutKeepsCorrespondence(old(musics), old(musicModels), Succeeded(offsets, deleted));
    }

    /**
     * `nextMusic(at:)`: the track after the first occurrence of `asset`,
     * which also becomes the selection; nil, with the selection unchanged,
     * when `asset` is absent or last.
     */
    method NextMusic(asset: Music) returns (r: Option<Music>)
      modifies this`selectedMusic, this`selectedMusicAsset
      ensures r == NextOf(musics, asset)
      ensures r.Some? ==> selectedMusic == r.value.FileName() && selectedMusicAsset == r
      ensures r.None? ==> selectedMusic == old(selectedMusic) && selectedMusicAsset == old(selectedMusicAsset)
    {
      var index := FirstIndexOf(musics, asset);
      if index.None? {
        return None;
      }
      if !(index.value < |musics| - 1) {
        return None;
      }
      var next := musics[index.value + 1];
      selectedMusic := next.FileName();
      selectedMusicAsset := Some(next);
      return Some(next);
    }

    /** `prevMusic(at:)`: the mirror image of `NextMusic`, nil at index 0 or when absent. */
    method PrevMusic(asset: Music) returns (r: Option<Music>)
      modifies this`selectedMusic, this`selectedMusicAsset
      ensures r == PrevOf(musics, asset)
      ensures r.Some? ==> selectedMusic == r.value.FileName() && selectedMusicAsset == r
      ensures r.None? ==> selectedMusic == old(selectedMusic) && selectedMusicAsset == old(selectedMusicAsset)
    {
      var index := FirstIndexOf(musics, asset);
      if index.None? {
        return None;
      }
      if !(index.value > 0) {
        return None;
      }
      var prev := musics[index.value - 1];
      selectedMusic := prev.FileName();
      selectedMusicAsset := Some(prev);
      return Some(prev);
    }

    /** `checkSet`: whether `asset` is the selected track. */
    predicate CheckSet(asset: Music)
      reads this
      ensures CheckSet(asset) <==> selectedMusicAsset.Some? && selectedMusicAsset.value == asset
    {
      selectedMusicAsset == Some(asset)
    }
  }
}
