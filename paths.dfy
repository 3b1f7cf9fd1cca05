/** The banner path a file dropped onto a banner input is given. */
module Paths {
  import opened Wrappers
  import opened Strings

  const WorldsRoot: string := "worlds/"
  const BannersDir: string := "/banners/"

  /** `worlds/<world id>/banners/<file name>`: a path convention, no file is copied. */
  function DropPath(worldId: string, fileName: string): (r: string)
    ensures '/' !in worldId ==> SplitDropPath(r) == Some((worldId, fileName))
  {
    var r := WorldsRoot + worldId + BannersDir + fileName;
    if '/' in worldId then r else DropPathSplits(worldId, fileName); r
  }

  /** The input's value after a drop: the synthesized path, or unchanged when no file was dropped. */
  function InputAfterDrop(current: string, worldId: string, file: Option<string>): (r: string)
    ensures file.None? ==> r == current
    ensures file.Some? && '/' !in worldId ==> SplitDropPath(r) == Some((worldId, file.value))
  {
    match file
    case None => current
    case Some(name) => DropPath(worldId, name)
  }

  /** Reads a drop path back into its world id and file name. */
  function SplitDropPath(path: string): Option<(string, string)>
  {
    if |path| < |WorldsRoot| || path[..|WorldsRoot|] != WorldsRoot then None
    else
      var rest := path[|WorldsRoot|..];
      var k := IndexOf(rest, '/');
      if |rest| - k < |BannersDir| || rest[k..k + |BannersDir|] != BannersDir then None
      else Some((rest[..k], rest[k + |BannersDir|..]))
  }

  /** A drop path names its world and file again, for a world id without '/'. */
  lemma DropPathSplits(worldId: string, fileName: string)
    requires '/' !in worldId
    ensures SplitDropPath(WorldsRoot + worldId + BannersDir + fileName) == Some((worldId, fileName))
  {
    var path := WorldsRoot + worldId + BannersDir + fileName;
    var rest := path[|WorldsRoot|..];
    assert rest == worldId + BannersDir + fileName;
    var k := IndexOf(rest, '/');
    assert rest[|worldId|] == '/';
    assert k == |worldId|;
    assert rest[k..k + |BannersDir|] == BannersDir;
    assert rest[..k] == worldId;
    assert rest[k + |BannersDir|..] == fileName;
  }

  /** Every path that reads back as a drop path is the drop path of what it reads as. */
  lemma SplitDropPathSound(path: string, worldId: string, fileName: string)
    requires SplitDropPath(path) == Some((worldId, fileName))
    ensures '/' !in worldId
    ensures path == DropPath(worldId, fileName)
  {
  }
}
