/**
 * The ordered list of directories searched for data archives
 * (`GetMPQSearchPaths` in Source/init.cpp).
 */
module SearchPaths {
  import opened Options
  import opened Strings

  /** Product sub-directory appended to every `XDG_DATA_DIRS` entry. */
  const ProductSuffix: string := "shadowed-pilgrims/shadow-of-the-west/"
  /** The two system directories searched on Unix when `XDG_DATA_DIRS` is unset. */
  const UsrLocalShareDir: string := "/usr/local/share/shadowed-pilgrims/shadow-of-the-west/"
  const UsrShareDir: string := "/usr/share/shadowed-pilgrims/shadow-of-the-west/"
  /** The fixed storage root of the NXDK (original Xbox) build. */
  const NxdkRoot: string := "D:\\"
  /** The working directory, always the last entry. */
  const WorkingDir: string := ""

  /**
   * The platform-specific part of the search, with the platform's own lookups
   * already done: the value of `XDG_DATA_DIRS` (absent when unset) on Unix,
   * the GOG install path found for the product (empty when none) on Windows.
   */
  datatype Platform =
    | Unix(xdgDataDirs: Option<string>)
    | Nxdk
    | Windows(gogPath: string)
    | OtherPlatform

  /** The inputs of one search-path computation. */
  datatype PathEnv = PathEnv(basePath: string, prefPath: string, configPath: string, platform: Platform)

  /**
   * The directory searched for one `XDG_DATA_DIRS` segment: the segment, a
   * `/` unless it is empty or already ends in one, then the product suffix.
   */
  function XdgDataDir(segment: string): (dir: string)
    ensures StartsWith(dir, segment) && EndsWith(dir, ProductSuffix)
    ensures var root := dir[..|dir| - |ProductSuffix|];
      (root == [] || root[|root| - 1] == '/') &&
      (root == segment || root == segment + "/")
    ensures |dir| == |segment| + |ProductSuffix| <==> segment == [] || segment[|segment| - 1] == '/'
  {
    var fullPath := if segment != [] && segment[|segment| - 1] != '/' then segment + "/" else segment;
    assert (fullPath + ProductSuffix)[..|fullPath|] == fullPath;
    assert (fullPath + ProductSuffix)[|fullPath|..] == ProductSuffix;
    fullPath + ProductSuffix
  }

  /** One `XdgDataDir` per segment, in order. */
  function XdgDataDirs(segments: seq<string>): (dirs: seq<string>)
    ensures |dirs| == |segments|
  {
    if segments == [] then []
    else XdgDataDirs(segments[..|segments| - 1]) + [XdgDataDir(segments[|segments| - 1])]
  }

  lemma {:induction false} XdgDataDirsAt(segments: seq<string>, i: nat)
    requires i < |segments|
    ensures XdgDataDirs(segments)[i] == XdgDataDir(segments[i])
    decreases |segments|
  {
    if i < |segments| - 1 {
      XdgDataDirsAt(segments[..|segments| - 1], i);
    }
  }

  /**
   * The base, pref and config directories as kept by the partial
   * deduplication: pref is dropped when it equals base, config when it
   * equals an entry already kept.
   */
  function LeadingDirs(base: string, pref: string, config: string): seq<string>
  {
    var firstTwo := if pref == base then [base] else [base, pref];
    if config in firstTwo then firstTwo else firstTwo + [config]
  }

  /** The directories the platform adds between the leading ones and the working directory. */
  function PlatformDirs(platform: Platform): seq<string>
  {
    match platform
    case Unix(None) => [UsrLocalShareDir, UsrShareDir]
    case Unix(Some(v)) => XdgDataDirs(SplitByChar(v, ':'))
    case Nxdk => [NxdkRoot]
    case Windows(gog) => if gog == [] then [] else [gog + "/", gog + "/hellfire/"]
    case OtherPlatform => []
  }

  /** The search list, highest priority first. */
  function SearchPathList(env: PathEnv): seq<string>
  {
    LeadingDirs(env.basePath, env.prefPath, env.configPath) + PlatformDirs(env.platform) + [WorkingDir]
  }

  /** Appends one directory per `:`-separated segment of `xdgDataDirs`, in order. */
  method AppendXdgDataDirs(paths: seq<string>, xdgDataDirs: string) returns (extended: seq<string>)
    ensures extended == paths + XdgDataDirs(SplitByChar(xdgDataDirs, ':'))
  {
    extended := AppendSegmentDirs(paths, SplitByChar(xdgDataDirs, ':'));
  }

  /** The loop: one `XdgDataDir` per segment, appended in order. */
  method AppendSegmentDirs(paths: seq<string>, segments: seq<string>) returns (extended: seq<string>)
    ensures extended == paths + XdgDataDirs(segments)
  {
    extended := paths;
    var i := 0;
    while i < |segments|
      invariant 0 <= i <= |segments|
      invariant extended == paths + XdgDataDirs(segments[..i])
    {
      var segment := segments[i];
      var fullPath := segment;
      if segment != [] && segment[|segment| - 1] != '/' {
        fullPath := fullPath + "/";
      }
      fullPath := fullPath + ProductSuffix;
      assert segments[..i + 1][..i] == segments[..i];
      extended := extended + [fullPath];
      i := i + 1;
    }
    assert segments[..i] == segments;
  }

  /** Builds the search list with pushes and pops, as the source does. */
  method GetMPQSearchPaths(env: PathEnv) returns (paths: seq<string>)
    ensures paths == SearchPathList(env)
  {
    paths := [env.basePath];
    paths := paths + [env.prefPath];
    if paths[0] == paths[1] {
      paths := paths[..|paths| - 1];
    }
    paths := paths + [env.configPath];
    if paths[0] == paths[1] || (|paths| == 3 && (paths[0] == paths[2] || paths[1] == paths[2])) {
      paths := paths[..|paths| - 1];
    }
    ghost var leading := paths;
    assert leading == LeadingDirs(env.basePath, env.prefPath, env.configPath);

    match env.platform {
      case Unix(xdgDataDirs) =>
        if xdgDataDirs.Some? {
          paths := AppendXdgDataDirs(paths, xdgDataDirs.value);
        } else {
          paths := paths + [UsrLocalShareDir];
          paths := paths + [UsrShareDir];
          assert paths == leading + [UsrLocalShareDir, UsrShareDir];
        }
      case Nxdk =>
        paths := paths + [NxdkRoot];
      case Windows(gogPath) =>
        if |gogPath| > 0 {
          paths := paths + [gogPath + "/"];
          paths := paths + [gogPath + "/hellfire/"];
        }
      case OtherPlatform =>
    }
    assert paths == leading + PlatformDirs(env.platform);

    paths := paths + [WorkingDir];
  }

  /** The base directory comes first and the working directory last. */
  lemma BaseFirstWorkingDirLast(env: PathEnv)
    ensures var paths := SearchPathList(env);
      |paths| >= 2 && paths[0] == env.basePath && paths[|paths| - 1] == WorkingDir
  {
  }

  /** The kept leading entries are pairwise distinct and are exactly the three inputs. */
  lemma LeadingDirsDistinct(base: string, pref: string, config: string)
    ensures var lead := LeadingDirs(base, pref, config);
      1 <= |lead| <= 3 &&
      (forall i, j :: 0 <= i < j < |lead| ==> lead[i] != lead[j]) &&
      (forall d :: d in lead <==> d == base || d == pref || d == config)
  {
  }

  /** Pref is kept, as the second entry, exactly when it differs from base. */
  lemma PrefKeptIff(env: PathEnv)
    ensures var paths := SearchPathList(env);
      env.prefPath != env.basePath <==> paths[1] == env.prefPath && |LeadingDirs(env.basePath, env.prefPath, env.configPath)| >= 2
  {
  }

  /** Config is kept, after the kept base and pref, exactly when it differs from both. */
  lemma ConfigKeptIff(env: PathEnv)
    ensures var lead := LeadingDirs(env.basePath, env.prefPath, env.configPath);
      var firstTwo := if env.prefPath == env.basePath then 1 else 2;
      (env.configPath != env.basePath && env.configPath != env.prefPath) <==>
        (|lead| == firstTwo + 1 && lead[firstTwo] == env.configPath)
  {
  }

  /**
   * With `XDG_DATA_DIRS` set, the entries after the leading ones are one
   * directory per segment, in order, each ending in the product suffix.
   */
  lemma XdgEntries(env: PathEnv, i: nat)
    requires env.platform.Unix? && env.platform.xdgDataDirs.Some?
    requires i < |SplitByChar(env.platform.xdgDataDirs.value, ':')|
    ensures var lead := LeadingDirs(env.basePath, env.prefPath, env.configPath);
      var segments := SplitByChar(env.platform.xdgDataDirs.value, ':');
      var paths := SearchPathList(env);
      |paths| == |lead| + |segments| + 1 &&
      paths[|lead| + i] == XdgDataDir(segments[i]) &&
      EndsWith(paths[|lead| + i], ProductSuffix)
  {
    var segments := SplitByChar(env.platform.xdgDataDirs.value, ':');
    XdgDataDirsAt(segments, i);
  }

  /** With `XDG_DATA_DIRS` unset, exactly the two fixed system directories precede the working directory. */
  lemma XdgUnsetFallbacks(env: PathEnv)
    requires env.platform == Unix(None)
    ensures SearchPathList(env) ==
      LeadingDirs(env.basePath, env.prefPath, env.configPath) + [UsrLocalShareDir, UsrShareDir, WorkingDir]
  {
  }

  /**
   * No deduplication is applied after the config entry: a system directory
   * equal to the base directory is listed a second time, and so is an
   * `XDG_DATA_DIRS` segment given twice, even as neighbours.
   */
  lemma LaterEntriesNotDeduplicated(base: string, pref: string, config: string, segment: string)
    requires segment != [] && SeparatorFree(segment, ':')
    ensures var paths := SearchPathList(PathEnv(UsrShareDir, UsrShareDir, UsrShareDir, Unix(None)));
      paths == [UsrShareDir, UsrLocalShareDir, UsrShareDir, WorkingDir]
    ensures SearchPathList(PathEnv(base, pref, config, Unix(Some(segment + ":" + segment)))) ==
      LeadingDirs(base, pref, config) + [XdgDataDir(segment), XdgDataDir(segment), WorkingDir]
  {
    SplitSeparatorFree(segment, ':');
    SplitAfterSegment(segment, segment, ':');
    assert SplitByChar(segment + ":" + segment, ':') == [segment, segment];
    assert XdgDataDirs([segment, segment]) == XdgDataDirs([segment]) + [XdgDataDir(segment)];
  }

  /** An empty `XDG_DATA_DIRS` adds no directory. */
  lemma XdgEmptyAddsNothing(base: string, pref: string, config: string)
    ensures SearchPathList(PathEnv(base, pref, config, Unix(Some("")))) == LeadingDirs(base, pref, config) + [WorkingDir]
  {
  }

  /** A trailing `:` adds no directory. */
  lemma XdgTrailingSeparatorAddsNothing(base: string, pref: string, config: string, segment: string)
    requires SeparatorFree(segment, ':')
    ensures SearchPathList(PathEnv(base, pref, config, Unix(Some(segment + ":")))) ==
      LeadingDirs(base, pref, config) + [XdgDataDir(segment), WorkingDir]
  {
    SplitAfterSegment(segment, "", ':');
    assert segment + ":" == segment + [':'] + "";
    assert SplitByChar(segment + ":", ':') == [segment];
  }

  /** An empty segment before a non-empty one stands for the product directory under the working directory. */
  lemma XdgEmptySegmentKept(base: string, pref: string, config: string, segment: string)
    requires segment != [] && SeparatorFree(segment, ':')
    ensures SearchPathList(PathEnv(base, pref, config, Unix(Some(":" + segment)))) ==
      LeadingDirs(base, pref, config) + [ProductSuffix, XdgDataDir(segment), WorkingDir]
  {
    SplitSeparatorFree(segment, ':');
    SplitAfterSegment("", segment, ':');
    assert ":" + segment == "" + [':'] + segment;
    assert SplitByChar(":" + segment, ':') == ["", segment];
    assert XdgDataDir("") == ProductSuffix;
    assert XdgDataDirs(["", segment]) == XdgDataDirs([""]) + [XdgDataDir(segment)];
  }
}
