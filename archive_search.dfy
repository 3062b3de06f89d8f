/**
 * First-hit search of the search list: opening a packed archive (`LoadMPQ`)
 * or locating an unpacked data directory (`FindUnpackedMpqData`) in
 * Source/init.cpp. The container format and the filesystem are oracles
 * passed in as functions of the absolute path.
 */
module ArchiveSearch {
  import opened Options

  newtype int32 = x: int | -0x8000_0000 <= x < 0x8000_0000

  /** An opened container; what it holds is outside this model. */
  datatype MpqArchive = MpqArchive(handle: nat)

  /**
   * What `MpqArchive::Open` reports for one path: the archive when it
   * opened, and the error code it stored (0 when the file is simply absent).
   */
  datatype OpenResult = OpenResult(archive: Option<MpqArchive>, error: int32)

  /** The separator `FindUnpackedMpqData` puts after the directory name. */
  const DirectorySeparator: char := '/'

  predicate Opens(open: string -> OpenResult, path: string)
  {
    open(path).archive.Some?
  }

  /** The archive of the first search directory where `mpqName` opens. */
  function FirstOpened(paths: seq<string>, mpqName: string, open: string -> OpenResult): Option<MpqArchive>
  {
    if paths == [] then None
    else if Opens(open, paths[0] + mpqName) then open(paths[0] + mpqName).archive
    else FirstOpened(paths[1..], mpqName, open)
  }

  /**
   * Tries `path + mpqName` for each path in order and returns the first
   * archive that opens (see `FirstOpenedIsFirstHit` for what that means).
   */
  method LoadMPQ(paths: seq<string>, mpqName: string, open: string -> OpenResult) returns (archive: Option<MpqArchive>)
    ensures archive == FirstOpened(paths, mpqName, open)
  {
    var error: int32 := 0;
    var i := 0;
    while i < |paths|
      invariant 0 <= i <= |paths|
      invariant FirstOpened(paths[i..], mpqName, open) == FirstOpened(paths, mpqName, open)
    {
      var mpqAbsPath := paths[i] + mpqName;
      var result := open(mpqAbsPath);
      archive, error := result.archive, result.error;
      if archive.Some? {
        return;
      }
      // A non-zero error is only logged; the search goes on.
      assert paths[i..][1..] == paths[i + 1..];
      i := i + 1;
    }
    return None;
  }

  /** The first `path + mpqName + DirectorySeparator` that exists. */
  function FirstUnpacked(paths: seq<string>, mpqName: string, fileExists: string -> bool): Option<string>
  {
    if paths == [] then None
    else if fileExists(paths[0] + mpqName + [DirectorySeparator]) then Some(paths[0] + mpqName + [DirectorySeparator])
    else FirstUnpacked(paths[1..], mpqName, fileExists)
  }

  /**
   * Returns the first `path + mpqName + DirectorySeparator` that exists
   * (see `FirstUnpackedIsFirstHit`).
   */
  method FindUnpackedMpqData(paths: seq<string>, mpqName: string, fileExists: string -> bool)
    returns (found: Option<string>)
    ensures found == FirstUnpacked(paths, mpqName, fileExists)
  {
    var i := 0;
    while i < |paths|
      invariant 0 <= i <= |paths|
      invariant FirstUnpacked(paths[i..], mpqName, fileExists) == FirstUnpacked(paths, mpqName, fileExists)
    {
      var targetPath := paths[i] + mpqName + [DirectorySeparator];
      if fileExists(targetPath) {
        return Some(targetPath);
      }
      assert paths[i..][1..] == paths[i + 1..];
      i := i + 1;
    }
    return None;
  }

  /**
   * `FirstOpened` is the first hit: absent exactly when no path opens, and
   * otherwise the archive of a path before which none opened.
   */
  lemma {:induction false} FirstOpenedIsFirstHit(paths: seq<string>, mpqName: string, open: string -> OpenResult)
    ensures FirstOpened(paths, mpqName, open).None? <==> forall i :: 0 <= i < |paths| ==> !Opens(open, paths[i] + mpqName)
    ensures FirstOpened(paths, mpqName, open).Some? ==>
      (exists k :: 0 <= k < |paths| &&
         FirstOpened(paths, mpqName, open) == open(paths[k] + mpqName).archive &&
         forall j :: 0 <= j < k ==> !Opens(open, paths[j] + mpqName))
    decreases |paths|
  {
    if paths != [] && !Opens(open, paths[0] + mpqName) {
      FirstOpenedIsFirstHit(paths[1..], mpqName, open);
      var r := FirstOpened(paths, mpqName, open);
      if r.Some? {
        var k :| 0 <= k < |paths[1..]| && r == open(paths[1..][k] + mpqName).archive &&
          forall j :: 0 <= j < k ==> !Opens(open, paths[1..][j] + mpqName);
        assert forall j :: 0 <= j < k + 1 ==> !Opens(open, paths[j] + mpqName) by {
          forall j | 0 <= j < k + 1 ensures !Opens(open, paths[j] + mpqName) {
            if j > 0 { assert paths[j] == paths[1..][j - 1]; }
          }
        }
      } else {
        forall i | 0 <= i < |paths| ensures !Opens(open, paths[i] + mpqName) {
          if i > 0 { assert paths[i] == paths[1..][i - 1]; }
        }
      }
    }
  }

  /** Once a path opens, the paths listed after it never matter. */
  lemma {:induction false} LaterPathsIgnored(paths: seq<string>, later: seq<string>, mpqName: string, open: string -> OpenResult)
    requires FirstOpened(paths, mpqName, open).Some?
    ensures FirstOpened(paths + later, mpqName, open) == FirstOpened(paths, mpqName, open)
    decreases |paths|
  {
    assert (paths + later)[0] == paths[0];
    if !Opens(open, paths[0] + mpqName) {
      assert (paths + later)[1..] == paths[1..] + later;
      LaterPathsIgnored(paths[1..], later, mpqName, open);
    }
  }

  /**
   * The search never consults a path after the first hit: two containers
   * that agree up to and including that path give the same result.
   */
  lemma {:induction false} OnlyPathsUpToHitConsulted(paths: seq<string>, mpqName: string, open: string -> OpenResult,
                                                    other: string -> OpenResult, k: nat)
    requires k < |paths| && Opens(open, paths[k] + mpqName)
    requires forall j :: 0 <= j <= k ==> other(paths[j] + mpqName) == open(paths[j] + mpqName)
    ensures FirstOpened(paths, mpqName, other) == FirstOpened(paths, mpqName, open)
    decreases k
  {
    if k > 0 && !Opens(open, paths[0] + mpqName) {
      forall j | 0 <= j <= k - 1 ensures other(paths[1..][j] + mpqName) == open(paths[1..][j] + mpqName) {
        assert paths[1..][j] == paths[j + 1];
      }
      OnlyPathsUpToHitConsulted(paths[1..], mpqName, open, other, k - 1);
    }
  }

  /** A path whose open fails, with or without an error code, only passes the search on. */
  lemma ErrorDoesNotStopSearch(path: string, rest: seq<string>, mpqName: string, open: string -> OpenResult)
    requires open(path + mpqName).archive.None?
    ensures FirstOpened([path] + rest, mpqName, open) == FirstOpened(rest, mpqName, open)
  {
    assert ([path] + rest)[1..] == rest;
  }

  /**
   * `FirstUnpacked` is the first hit: absent exactly when no candidate
   * directory exists, and otherwise the first one that does.
   */
  lemma {:induction false} FirstUnpackedIsFirstHit(paths: seq<string>, mpqName: string, fileExists: string -> bool)
    ensures FirstUnpacked(paths, mpqName, fileExists).None? <==>
      forall i :: 0 <= i < |paths| ==> !fileExists(paths[i] + mpqName + [DirectorySeparator])
    ensures FirstUnpacked(paths, mpqName, fileExists).Some? ==>
      (exists k :: 0 <= k < |paths| &&
         FirstUnpacked(paths, mpqName, fileExists) == Some(paths[k] + mpqName + [DirectorySeparator]) &&
         fileExists(paths[k] + mpqName + [DirectorySeparator]) &&
         forall j :: 0 <= j < k ==> !fileExists(paths[j] + mpqName + [DirectorySeparator]))
    decreases |paths|
  {
    if paths != [] && !fileExists(paths[0] + mpqName + [DirectorySeparator]) {
      FirstUnpackedIsFirstHit(paths[1..], mpqName, fileExists);
      var r := FirstUnpacked(paths, mpqName, fileExists);
      if r.Some? {
        var k :| 0 <= k < |paths[1..]| && r == Some(paths[1..][k] + mpqName + [DirectorySeparator]) &&
          fileExists(paths[1..][k] + mpqName + [DirectorySeparator]) &&
          forall j :: 0 <= j < k ==> !fileExists(paths[1..][j] + mpqName + [DirectorySeparator]);
        assert paths[k + 1] == paths[1..][k];
        assert forall j :: 0 <= j < k + 1 ==> !fileExists(paths[j] + mpqName + [DirectorySeparator]) by {
          forall j | 0 <= j < k + 1 ensures !fileExists(paths[j] + mpqName + [DirectorySeparator]) {
            if j > 0 { assert paths[j] == paths[1..][j - 1]; }
          }
        }
      } else {
        forall i | 0 <= i < |paths| ensures !fileExists(paths[i] + mpqName + [DirectorySeparator]) {
          if i > 0 { assert paths[i] == paths[1..][i - 1]; }
        }
      }
    }
  }

  /**
   * The archive on the second of three search directories is found without
   * the container being asked about the third: `base.dat` present only in
   * the user data directory.
   */
  lemma SecondDirectoryScenario()
    ensures var open := (p: string) =>
        if p == "/home/user/.data/base.dat" then OpenResult(Some(MpqArchive(1)), 0) else OpenResult(None, 0);
      FirstOpened(["/install/", "/home/user/.data/", ""], "base.dat", open) == Some(MpqArchive(1))
  {
    var open := (p: string) =>
        if p == "/home/user/.data/base.dat" then OpenResult(Some(MpqArchive(1)), 0) else OpenResult(None, 0);
    var paths := ["/install/", "/home/user/.data/", ""];
    assert "/install/" + "base.dat" != "/home/user/.data/base.dat" by {
      assert ("/install/" + "base.dat")[1] == 'i';
    }
    assert paths[1..] == ["/home/user/.data/", ""];
  }
}
