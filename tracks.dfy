/**
 * The `Music` value type: a track's file URL in the app sandbox and the name
 * the file had when it was imported. Its identity is the URL's last path
 * component; its equality is the synthesised `Hashable` over both stored fields.
 */
module Tracks {

  /** A file URL, represented by its path. */
  datatype Url = Url(path: string)

  /**
   * `URL.lastPathComponent` for a path without a trailing separator: the
   * longest suffix of `path` that contains no '/'.
   */
  function LastPathComponent(path: string): string {
    if path == [] || path[|path| - 1] == '/' then []
    else LastPathComponent(path[..|path| - 1]) + [path[|path| - 1]]
  }

  /**
   * The last component is a suffix of the path without a separator, and it
   * reaches back to the last separator (or to the start of the path).
   */
  lemma {:induction false} LastPathComponentIsFinalSegment(path: string)
    ensures var r := LastPathComponent(path);
      '/' !in r && |r| <= |path| && r == path[|path| - |r|..] &&
      (|r| < |path| ==> path[|path| - |r| - 1] == '/')
  {
    if path != [] && path[|path| - 1] != '/' {
      var init := path[..|path| - 1];
      LastPathComponentIsFinalSegment(init);
      var r0 := LastPathComponent(init);
      assert init[|init| - |r0|..] + [path[|path| - 1]] == path[|path| - |r0| - 1..];
      if |r0| < |init| {
        assert path[|path| - |r0| - 2] == init[|init| - |r0| - 1];
      }
    }
  }

  /**
   * `url.appendingPathComponent(name)` on a directory URL: the result lies
   * under `dir`, and a name without a separator is its last component.
   */
  function AppendingPathComponent(dir: Url, name: string): (r: Url)
    ensures |r.path| > |dir.path| && r.path[..|dir.path|] == dir.path && r.path[|dir.path|] == '/'
    ensures '/' !in name ==> LastPathComponent(r.path) == name
  {
    var r := Url(dir.path + "/" + name);
    if '/' !in name then
      LastComponentOfAppended(dir, name);
      r
    else r
  }

  /** A file stored under a directory keeps its own name as the last component. */
  lemma LastComponentOfAppended(dir: Url, name: string)
    requires '/' !in name
    ensures LastPathComponent(dir.path + "/" + name) == name
  {
    var p := dir.path + "/" + name;
    LastPathComponentIsFinalSegment(p);
    assert p[|dir.path|] == '/';
    assert p[|p| - |name|..] == name;
  }

  datatype Music = Music(url: Url, originalName: string) {

    /** `fileName`: the last path component of `url`, which holds no separator. */
    function FileName(): (r: string)
      ensures '/' !in r
    {
      LastPathComponentIsFinalSegment(url.path);
      LastPathComponent(url.path)
    }

    /** `id` (for `Identifiable`) is the file name. */
    function Id(): string {
      FileName()
    }
  }

  /** `id` and `fileName` always agree, and both depend on `url` alone. */
  lemma IdIsFileName(a: Music, b: Music)
    ensures a.Id() == a.FileName()
    ensures a.url == b.url ==> a.FileName() == b.FileName()
    ensures '/' !in a.Id()
  {
    LastPathComponentIsFinalSegment(a.url.path);
  }

  /** Equality is the synthesised one: both stored fields agree. */
  lemma EqualityIsFieldwise(a: Music, b: Music)
    ensures a == b <==> a.url == b.url && a.originalName == b.originalName
    ensures a == b ==> a.Id() == b.Id()
  {
  }

  /**
   * The identity is coarser than equality: the same URL under two original
   * names gives two distinct values with one `id`.
   */
  lemma SameIdDoesNotImplyEqual()
    ensures exists a: Music, b: Music :: a.Id() == b.Id() && a != b
  {
    var u := Url("/Documents/track.mp3");
    var a := Music(u, "first");
    var b := Music(u, "second");
    assert a.Id() == b.Id() && a != b;
  }
}
