# Archive discovery and object flags, modelled in Dafny

This project models two parts of the game's `Source` tree.

- **Archive discovery and mounting, from `Source/init.cpp`.**
  - Step one builds the ordered list of directories to search (`GetMPQSearchPaths`).
  - Step two finds the first directory that holds a named archive (`LoadMPQ` for packed `.mpq` containers) or a named data directory (`FindUnpackedMpqData` for unpacked builds).
  - The model also covers the process-wide archive slots and the `gbBard`/`gbBarbarian` class flags.
  - It covers the four operations that fill and clear those slots: `LoadCoreArchives`, `LoadLanguageArchive`, `LoadGameArchives` and `init_cleanup`.
- **The object data declarations, from `Source/objdat.h`.**
  - The six `ObjectDataFlags` bits, and the six `ObjectData` predicates that test them.
  - The ranges of the `int8_t`-backed enumerations that index the object tables.

Modules, one concept each:

| module | file | what it holds |
|---|---|---|
| `Options` | options.dfy | the `Option` type that stands for `std::optional` |
| `Strings` | strings.dfy | prefix/suffix tests and the `:`-split of a list of directories |
| `SearchPaths` | search_paths.dfy | the search list as a function (`SearchPathList`) and as the push/pop method of the source (`GetMPQSearchPaths`) |
| `ArchiveSearch` | archive_search.dfy | the two first-hit loops (`LoadMPQ`, `FindUnpackedMpqData`), the functions that specify them (`FirstOpened`, `FirstUnpacked`), and lemmas saying these are the first hit |
| `Registry` | registry.dfy | the class `ArchiveRegistry`, with the slots and flags as fields, and one stage function per source statement group that each method is proved equal to |
| `RegistryProperties` | registry_props.dfy | what the stages promise: the main-archive retry, the CD requests, the quit on a partial Hellfire install, the class flags, the language slot and the cleanup |
| `ObjDat` | objdat.dfy | the enumerations, the flag bits, `ObjectData` and its predicates |

### Inputs to the model

The model takes the outside world as inputs. Some are fields of `Registry.Host`: the container, the filesystem and the directory inputs. The others are parameters. The build mode (`Registry.Build`) and the starting class flags are parameters of the `ArchiveRegistry` constructor. `HeadlessMode` is a parameter of `LoadGameArchives`, the language code of `LoadLanguageArchive`, and `gbIsMultiplayer`/`gbRunGame` of `InitCleanup`.

- **The container and the filesystem.** These are the functions `open: string -> OpenResult` (`MpqArchive::Open` with its error code), `fileExists` (`FileExists`) and `findAsset` (whether `FindAsset` finds the title art).
- **Directory inputs.** The base, pref and config directories, and the platform's part of the search list, are a `PathEnv` value. The platform (`SearchPaths.Platform`) is Unix with the value of `XDG_DATA_DIRS` (absent when unset), the NXDK build, Windows with the GOG install path, or any other platform, which adds no directory.
- **Build and runtime settings.** The build mode (`UNPACKED_MPQS`) and whether the platform loads `sotw.mpq`. Also `HeadlessMode`, the language code from `GetLanguageCode`, and `gbIsMultiplayer`/`gbRunGame`.
- **Events in place of effects.** The dialogs, `diablo_quit`, the hero and stash saves and `NetClose` are recorded in order as `Registry.Event` values.

## Model

| member | source | states |
|---|---|---|
| SearchPaths.GetMPQSearchPaths | Source/init.cpp:106-144 | The push/pop construction, including the conditional `pop_back`s and each platform branch, gives exactly `SearchPathList`: the kept leading directories, then the platform directories, then the working directory. |
| SearchPaths.AppendXdgDataDirs | Source/init.cpp:120-128 | One directory is appended per segment that `SplitByChar` yields for `XDG_DATA_DIRS`, in segment order. |
| SearchPaths.AppendSegmentDirs | Source/init.cpp:122-127 | The loop over the segments appends each segment's directory, in order, after the existing entries. |
| SearchPaths.XdgDataDir | Source/init.cpp:123-126 | The directory for one segment starts with the segment and ends with `shadowed-pilgrims/shadow-of-the-west/`. In between there is one `/` exactly when the segment is non-empty and does not already end in `/`. |
| SearchPaths.XdgDataDirsAt | Source/init.cpp:122-128 | Entry `i` of the XDG directories is the directory of segment `i`. |
| SearchPaths.BaseFirstWorkingDirLast | Source/init.cpp:109-144 | The search list always has the base directory first and the working directory `""` last. |
| SearchPaths.LeadingDirsDistinct | Source/init.cpp:109-115 | The kept leading entries number 1 to 3. They are pairwise distinct, and they are exactly the base, pref and config directories. |
| SearchPaths.PrefKeptIff | Source/init.cpp:110-112 | The pref directory is the second entry exactly when it differs from the base directory. |
| SearchPaths.ConfigKeptIff | Source/init.cpp:113-115 | The config directory is kept, right after the kept base and pref, exactly when it differs from both. |
| SearchPaths.XdgEntries | Source/init.cpp:120-128 | With `XDG_DATA_DIRS` set, the list has one entry per segment, in order, placed after the leading ones. Each entry is that segment's directory and ends with the product suffix. |
| SearchPaths.XdgUnsetFallbacks | Source/init.cpp:129-132 | With `XDG_DATA_DIRS` unset, exactly `/usr/local/share/...` and then `/usr/share/...` come between the leading directories and `""`. |
| SearchPaths.LaterEntriesNotDeduplicated | Source/init.cpp:116-144 | Entries after the config directory are never deduplicated. A system directory equal to the base directory appears twice, and so does any non-empty colon-free segment given twice in `XDG_DATA_DIRS`. |
| SearchPaths.XdgEmptyAddsNothing | Source/init.cpp:120-128 | An empty `XDG_DATA_DIRS` adds no directory, and it does not bring back the `/usr` fallbacks. |
| SearchPaths.XdgTrailingSeparatorAddsNothing | Source/init.cpp:120-128 | A colon-free segment followed by a trailing `:` adds only that segment's directory. |
| SearchPaths.XdgEmptySegmentKept | Source/init.cpp:120-128 | An empty segment before a non-empty one is kept: it adds the product directory under the working directory, then the next segment's directory follows. |
| Strings.JoinSplit | Source/init.cpp:122 | The full split of a string, with its empty segments, joined with the separator gives back the string. |
| Strings.SplitJoin | Source/init.cpp:122 | Splitting a join of separator-free segments gives back those segments. |
| Strings.SplitSegmentsSeparatorFree | Source/init.cpp:122 | No segment of the split holds the separator. |
| Strings.SplitLastEmpty | Source/init.cpp:122 | The last segment of the full split is empty exactly when the string is empty or ends in the separator. |
| Strings.JoinSplitByChar | Source/init.cpp:122 | The segments of `XDG_DATA_DIRS` are none exactly when the value is empty. Otherwise they, joined with `:` and followed by the trailing `:` if there is one, give back the value, and none holds a `:`. |
| ArchiveSearch.LoadMPQ | Source/init.cpp:83-103 | The loop tries `path + mpqName` for each path in order and returns `FirstOpened`. A failed open with a non-zero error does not end the loop. |
| ArchiveSearch.FindUnpackedMpqData | Source/init.cpp:68-81 | The loop returns `FirstUnpacked`, the first `path + mpqName + '/'` that exists. |
| ArchiveSearch.FirstOpenedIsFirstHit | Source/init.cpp:88-102 | The result is absent exactly when no path opens. Otherwise it is the archive of some path `k` such that no earlier path opens. |
| ArchiveSearch.LaterPathsIgnored | Source/init.cpp:89-94 | Once a path opens, appending more paths to the list changes nothing. |
| ArchiveSearch.OnlyPathsUpToHitConsulted | Source/init.cpp:89-94 | Two containers that agree on every path up to and including the first hit give the same result, so later paths are never tried. |
| ArchiveSearch.ErrorDoesNotStopSearch | Source/init.cpp:95-97 | A path that fails to open, whatever its error code, just passes the search on to the remaining paths. |
| ArchiveSearch.FirstUnpackedIsFirstHit | Source/init.cpp:71-80 | The result is absent exactly when no candidate directory exists. Otherwise it is `paths[k] + mpqName + '/'` for a `k` whose candidate exists while no earlier candidate does. |
| ArchiveSearch.SecondDirectoryScenario | Source/init.cpp:83-103 | With the archive only in the second of three directories, the search finds it there. |
| Registry.ArchiveRegistry.constructor | Source/init.cpp:46-62 | Every slot starts empty, no effect is recorded, and the class flags hold the values they are given. |
| Registry.ArchiveRegistry.InitCleanup | Source/init.cpp:162-190 | The new state is `Cleanup` of the old one. The hero and stash are saved only when multiplayer and running. The build's slots are emptied and the network is closed. |
| Registry.ArchiveRegistry.LoadCoreArchives | Source/init.cpp:192-205 | The new state is `CoreStage` over the computed search list. |
| Registry.ArchiveRegistry.LoadLanguageArchive | Source/init.cpp:207-225 | The new state is `LanguageStage` for the code. The slot is reset first and is filled only when the code is not `"en"`. |
| Registry.ArchiveRegistry.LoadGameArchives | Source/init.cpp:227-292 | The new state is `GameStage` of the build mode over the computed search list. |
| Registry.ArchiveRegistry.LoadUnpackedGameData | Source/init.cpp:230-257 | The unpacked branch is its two steps in source order. |
| Registry.ArchiveRegistry.LoadUnpackedMainData | Source/init.cpp:231-238 | The main data directory is mounted. Then, unless headless, a missing `ui_art\title.clx` requests the `diabdat.mpq` CD. |
| Registry.ArchiveRegistry.LoadUnpackedHellfire | Source/init.cpp:239-257 | Without a Hellfire directory, the CD is requested and the empty optional is read. Otherwise both class flags go off, and a missing monk, music or voice file shows the dialog and quits with status 1. |
| Registry.ArchiveRegistry.LoadPackedGameArchives | Source/init.cpp:259-290 | The packed branch is its four steps in source order. |
| Registry.ArchiveRegistry.LoadMainData | Source/init.cpp:259-271 | `DIABDAT.MPQ` is tried first and `diabdat.mpq` only after it. Unless headless, a missing `ui_art\title.pcx` requests the `diabdat.mpq` CD. |
| Registry.ArchiveRegistry.LoadHellfire | Source/init.cpp:273-275 | `hellfire.mpq` is mounted, or its CD is requested. |
| Registry.ArchiveRegistry.LoadClassArchives | Source/init.cpp:277-283 | The monk, bard and barbarian archives are mounted. Each class flag is switched on when its archive was found, and never off. |
| Registry.ArchiveRegistry.LoadSoundArchives | Source/init.cpp:284-290 | The music and voice archives are mounted. Without the monk, music or voice archive, the dialog is shown and the program quits with status 1. |
| RegistryProperties.DiabdatUpperCaseFirst | Source/init.cpp:259-263 | The upper-case name wins whenever it opens anywhere. The lower-case name is only a fallback. The main archive is missing exactly when neither name opens in any directory. |
| RegistryProperties.PackedEventsInOrder | Source/init.cpp:259-290 | The packed load only appends effects. They are: the title-art CD request, then the Hellfire CD request, then the dialog and quit. |
| RegistryProperties.PackedHellfireCdRequest | Source/init.cpp:273-275 | `InsertCDDlg("hellfire.mpq")` is requested exactly when `hellfire.mpq` opens in no search directory. |
| RegistryProperties.PackedQuitIffMandatoryMissing | Source/init.cpp:287-290 | The program quits with status 1 (after the dialog, as the last effect) exactly when the monk, music or voice archive is missing. The bard and barbarian archives play no part. |
| RegistryProperties.PackedClassFlags | Source/init.cpp:277-283 | Each class flag ends up on exactly when it was on before, or its archive opens in some directory. |
| RegistryProperties.FlagsMirrorOptionalArchives | Source/init.cpp:277-283 | Starting from both flags off, each flag is on exactly when its optional archive is mounted. |
| RegistryProperties.ReloadForgetsPreviousArchives | Source/init.cpp:162-292 | After `init_cleanup`, a packed reload mounts the same archives and records the same effects whatever was mounted before. Each class flag carried across the cleanup ends up on exactly when it was on before or its archive is mounted. |
| RegistryProperties.GameStageFrame | Source/init.cpp:227-292 | `LoadGameArchives` only appends effects. The packed build leaves the directory slots and the spawn, `sotw`, language and font archives alone. The unpacked build leaves every archive slot and the spawn, font and language directories alone. |
| RegistryProperties.UnpackedHellfireOutcome | Source/init.cpp:239-257 | Without a Hellfire directory: the CD request and the dereference of the empty path come last, the flags are unchanged, and there is no quit. With one: both flags are off, and there is a quit exactly when a mandatory file is missing. |
| RegistryProperties.UnpackedHellfireDirectory | Source/init.cpp:239-247 | The Hellfire directory is a search directory followed by `hellfire/`. |
| RegistryProperties.CoreArchivesFound | Source/init.cpp:192-205 | The fonts slot is empty exactly when no directory holds the fonts. `sotw.mpq` is loaded the same way on the platforms that load it and is left alone elsewhere. No other slot, flag or effect changes. |
| RegistryProperties.LanguageArchiveFound | Source/init.cpp:207-225 | For `"en"`, the build's language slot is empty. For any other code, the slot is empty exactly when no directory holds `<code>.mpq` (packed) or `<code>/` (unpacked). No effect is recorded. |
| RegistryProperties.LanguageStageOnlyWritesLanguageSlot | Source/init.cpp:207-225 | Only the language slot of the build's mode is written. |
| RegistryProperties.LanguageStageIgnoresPreviousLanguage | Source/init.cpp:209-213 | The previous language archive has no influence on the result, and loading the same language twice is the same as loading it once. |
| RegistryProperties.CleanupEmptiesEverySlot | Source/init.cpp:162-190 | Every slot is emptied and the class flags are kept. The saves happen exactly in a running multiplayer game, and `NetClose` is the last effect. |
| RegistryProperties.CleanupIdempotentOnSlots | Source/init.cpp:176-186 | A second cleanup leaves the slots and flags as the first one left them. |
| RegistryProperties.StagesKeepWellFormed | Source/init.cpp:46-62 | Every operation leaves the slots of the unused build mode empty. |
| ObjDat.FlagValue | Source/objdat.h:257-264 | Each flag's value is `1 << k`, where `k` is its position in the declaration. |
| ObjDat.FlagValuesAreDistinctBits | Source/objdat.h:257-264 | The values are 1, 2, 4, 8, 16 and 32. Each is a single bit, two different flags share no bit, and all fit in a `uint8_t`. |
| ObjDat.ObjectData.IsAnimated | Source/objdat.h:280-283 | `isAnimated` is true exactly when bit 0 of `flags` is set. |
| ObjDat.ObjectData.IsSolid | Source/objdat.h:285-288 | `isSolid` is true exactly when bit 1 of `flags` is set. |
| ObjDat.ObjectData.MissilesPassThrough | Source/objdat.h:290-293 | `missilesPassThrough` is true exactly when bit 2 of `flags` is set. |
| ObjDat.ObjectData.IsLight | Source/objdat.h:295-298 | `isLight` is true exactly when bit 3 of `flags` is set. |
| ObjDat.ObjectData.IsTrap | Source/objdat.h:300-303 | `isTrap` is true exactly when bit 4 of `flags` is set. |
| ObjDat.ObjectData.IsBreakable | Source/objdat.h:305-308 | `isBreakable` is true exactly when bit 5 of `flags` is set. |
| ObjDat.PredicateTestsItsBit | Source/objdat.h:280-308 | `isAnimated`, `isSolid`, `missilesPassThrough`, `isLight`, `isTrap` and `isBreakable` are each true exactly when their own bit of `flags` is set. |
| ObjDat.SettingFlagChangesOnlyItsPredicate | Source/objdat.h:257-308 | Setting one flag turns on its own predicate and leaves the other five unchanged. |
| ObjDat.ClearingFlagChangesOnlyItsPredicate | Source/objdat.h:257-308 | Clearing one flag turns off its own predicate and leaves the other five unchanged. |
| ObjDat.ObjectIdsIndexAllObjects | Source/objdat.h:110-227 | The object kinds are numbered 0 to 114, and `OBJ_NULL` is -1. So every kind but `OBJ_NULL` indexes `AllObjects[115]`, and the last kind is the last entry. |
| ObjDat.GraphicIdEnds | Source/objdat.h:36-108 | `OFILE_LAST` is `OFILE_STORCH2SW`, which is 67. `OFILE_NULL` is -1, and every other graphic lies between `OFILE_L1BRAZ` = 0 and `OFILE_LAST`. |
| ObjDat.ThemeIdEnds | Source/objdat.h:15-34 | The themes run from `THEME_BARREL` = 0 to `THEME_WEAPONRACK` = 16, and `THEME_NONE` is -1. |

## Left out

- `MpqArchive::Open`, `MpqArchive::ErrorMessage`, `FileExists` and `FindAsset` are oracles, because the container format and the filesystem are not part of this model. The oracles do not depend on what has been mounted so far.
- Logging (`LogVerbose`, `LogError`) and the verbose dump of the search list (Source/init.cpp:146-155) are left out: they are diagnostics that do not affect control flow. For the same reason, the error code `LoadMPQ` keeps is only tracked in its loop.
- `InsertCDDlg`, `UiErrorOkDialog`, `diablo_quit`, `pfile_write_hero`, `sfile_write_stash` and `NetClose` are recorded as events, not modelled. The model continues after each of them as the code reads, because whether `InsertCDDlg` returns is defined elsewhere.
- Registry.ArchiveRegistry.LoadUnpackedHellfire: when no Hellfire directory exists, the source goes on to dereference the empty optional (Source/init.cpp:243), which is undefined behaviour in C++. The model records `EmptyPathDereferenced` and ends the stage there.
- The GOG lookup (`fsg_get_gog_game_path`) and the platform selection are inputs (`SearchPaths.Platform`), not computed. The NXDK root `D:\` is a constant.
- Strings.SplitByChar: utils/str_split.hpp is not part of this model. The model takes its segments to be those of the full split (k separators give k + 1 segments) with an empty last segment dropped. So `""` gives no segment, a trailing `:` adds none, and empty segments elsewhere are kept. This behaviour is assumed, not derived from that file.
- `DirectorySeparator` is declared outside the file. The model fixes it to `/`, as on the Unix builds.
- `paths::BasePath`, `PrefPath`, `ConfigPath`, `GetLanguageCode` and the getenv of `XDG_DATA_DIRS` are inputs.
- `gbBard`, `gbBarbarian`, `gbIsMultiplayer`, `gbRunGame` and `HeadlessMode` are defined outside the file. The registry receives the class flags' starting values and the other three as parameters.
- `UNPACKED_MPQS` and the `sotw.mpq` platform condition are a runtime `Build` value, not conditional compilation. The model holds both builds' slots: the archive slots as one record field and the directory slots as another, with the unused build's record always empty.
- `init_create_window` and `MainWndProc` (Source/init.cpp:294-352) are left out: they are window creation and event dispatch.
- The contents of `AllObjects`, `ObjTypeConv` and `ObjMasterLoadList` are left out: they are defined outside objdat.h. Only the declared length of `AllObjects` is modelled.
- `dungeon_type` (levels/gendung.h) is not part of this model. It is typed as a plain `int8`.
- `HasAnyOf` and `use_enum_as_flags` (utils/enum_traits.h) are not part of this model. `HasAnyOf` is taken to be "some tested bit is set".
- The enumerations are integer ranges with one named constant per enumerator, not Dafny datatypes. The value of each constant is written out from its position in the declaration.
- `ObjDat.ObjectIdsIndexAllObjects`, `ObjDat.GraphicIdEnds` and `ObjDat.ThemeIdEnds` only state range facts about those constants. That the enumerators are numbered consecutively rests on how the constants are written.

### Behaviour of the code worth knowing

- **Deduplication.** The search list is not deduplicated in general. Only the pref and config entries are compared with the entries before them. The platform directories are never compared (`SearchPaths.LaterEntriesNotDeduplicated`).
- **Class flags.** `gbBard` and `gbBarbarian` are not recomputed when the slots change. `init_cleanup` leaves them as they were (`RegistryProperties.CleanupEmptiesEverySlot`). The packed load only ever switches them on (`RegistryProperties.PackedClassFlags`).
