/**
 * The process-wide archive registry of Source/init.cpp: the optional archive
 * slots, the class flags derived from them, and the four operations that
 * fill and clear them (`LoadCoreArchives`, `LoadLanguageArchive`,
 * `LoadGameArchives`, `init_cleanup`).
 *
 * The dialogs, the quit, the saves and the network shutdown the source
 * triggers are recorded as events, in order, without modelling what they do.
 */
module Registry {
  import opened Options
  import opened SearchPaths
  import opened ArchiveSearch

  /** Packed archives (`MpqArchive`) or unpacked directories, fixed when the program is built. */
  datatype Mode = Packed | Unpacked

  /**
   * The build-time choices: the data mode, and whether the platform loads
   * `sotw.mpq` in the core stage (all but Android, Apple, 3DS and Switch).
   */
  datatype Build = Build(mode: Mode, loadsSotw: bool)

  /**
   * Everything the registry consults outside itself: the search-path inputs,
   * the container's open, the filesystem's existence test, and the asset
   * lookup of the title art.
   */
  datatype Host = Host(env: PathEnv, open: string -> OpenResult, fileExists: string -> bool, findAsset: string -> bool)

  /** The external effects, recorded in the order they are requested. */
  datatype Event =
    | HeroWritten                           // pfile_write_hero(false)
    | StashWritten                          // sfile_write_stash()
    | NetClosed                             // NetClose()
    | InsertCdRequested(archiveName: string) // InsertCDDlg(archiveName)
    | HellfireMissingDialog                 // UiErrorOkDialog("Some Hellfire MPQs are missing", ...)
    | Quit(status: int)                     // diablo_quit(status)
    | EmptyPathDereferenced                 // `*hellfire_data_path` read while it is empty

  /** The eleven archive slots of the packed build, `spawn_mpq` to `font_mpq`. */
  datatype Archives = Archives(
    spawn: Option<MpqArchive>,
    diabdat: Option<MpqArchive>,
    hellfire: Option<MpqArchive>,
    hfmonk: Option<MpqArchive>,
    hfbard: Option<MpqArchive>,
    hfbarb: Option<MpqArchive>,
    hfmusic: Option<MpqArchive>,
    hfvoice: Option<MpqArchive>,
    sotw: Option<MpqArchive>,
    lang: Option<MpqArchive>,
    font: Option<MpqArchive>)

  /** The five directory slots of the unpacked build, `spawn_data_path` to `lang_data_path`. */
  datatype DataPaths = DataPaths(
    spawn: Option<string>,
    diabdat: Option<string>,
    hellfire: Option<string>,
    font: Option<string>,
    lang: Option<string>)

  const NoArchives := Archives(None, None, None, None, None, None, None, None, None, None, None)
  const NoDataPaths := DataPaths(None, None, None, None, None)

  /** Everything the registry holds: both builds' slots, the two class flags, the effects so far. */
  datatype RegistryState = RegistryState(
    mpqs: Archives,
    dataPaths: DataPaths,
    gbBard: bool,
    gbBarbarian: bool,
    events: seq<Event>)

  /** The slots of the build mode not in use stay empty. */
  predicate WellFormed(st: RegistryState, mode: Mode)
  {
    && (mode == Packed ==> st.dataPaths == NoDataPaths)
    && (mode == Unpacked ==> st.mpqs == NoArchives)
  }

  /** The events a run of a stage added after the ones recorded before it. */
  function NewEvents(before: RegistryState, after: RegistryState): seq<Event>
    requires |before.events| <= |after.events|
  {
    after.events[|before.events|..]
  }

  // ---------------------------------------------------------------- stages

  /** The slots of the build mode emptied, the rest of the state kept. */
  function ClearedSlots(st: RegistryState, mode: Mode): RegistryState
  {
    if mode == Unpacked then st.(dataPaths := NoDataPaths) else st.(mpqs := NoArchives)
  }

  /** `init_cleanup`: save when a multiplayer game runs, empty the build's slots, close the network. */
  function Cleanup(st: RegistryState, mode: Mode, multiplayerGameRunning: bool): RegistryState
  {
    var saved := if multiplayerGameRunning then [HeroWritten, StashWritten] else [];
    ClearedSlots(st, mode).(events := st.events + saved + [NetClosed])
  }

  /** `LoadCoreArchives`: the extra fonts and, where the platform loads it, `sotw.mpq`. */
  function CoreStage(st: RegistryState, build: Build, paths: seq<string>, host: Host): RegistryState
  {
    if build.mode == Unpacked then
      st.(dataPaths := st.dataPaths.(font := FirstUnpacked(paths, "fonts", host.fileExists)))
    else
      var sotw := if build.loadsSotw then FirstOpened(paths, "sotw.mpq", host.open) else st.mpqs.sotw;
      st.(mpqs := st.mpqs.(sotw := sotw, font := FirstOpened(paths, "fonts.mpq", host.open)))
  }

  /** `LoadLanguageArchive`: the archive named after the language code, none for "en". */
  function LanguageStage(st: RegistryState, build: Build, paths: seq<string>, host: Host, code: string): RegistryState
  {
    if build.mode == Unpacked then
      st.(dataPaths := st.dataPaths.(lang := if code == "en" then None else FirstUnpacked(paths, code, host.fileExists)))
    else
      st.(mpqs := st.mpqs.(lang := if code == "en" then None else FirstOpened(paths, code + ".mpq", host.open)))
  }

  /** The main archive: upper-case name first, lower-case name only when that finds nothing. */
  function DiabdatArchive(paths: seq<string>, open: string -> OpenResult): Option<MpqArchive>
  {
    var upper := FirstOpened(paths, "DIABDAT.MPQ", open);
    if upper.Some? then upper else FirstOpened(paths, "diabdat.mpq", open)
  }

  /** The insert-CD request for the main data when the title art cannot be found. */
  function TitleArtCheck(headless: bool, host: Host, titleArt: string): seq<Event>
  {
    if !headless && !host.findAsset(titleArt) then [InsertCdRequested("diabdat.mpq")] else []
  }

  /** The dialog and the exit with status 1 of a partial Hellfire installation. */
  function MandatorySubsetCheck(complete: bool): seq<Event>
  {
    if complete then [] else [HellfireMissingDialog, Quit(1)]
  }

  /** Lines 259-271 of `LoadGameArchives` (packed): the main archive and the title-art check. */
  function MainDataStage(st: RegistryState, paths: seq<string>, host: Host, headless: bool): RegistryState
  {
    st.(mpqs := st.mpqs.(diabdat := DiabdatArchive(paths, host.open)),
        events := st.events + TitleArtCheck(headless, host, "ui_art\\title.pcx"))
  }

  /** Lines 273-275 of `LoadGameArchives` (packed): the Hellfire archive, or a request for its CD. */
  function HellfireStage(st: RegistryState, paths: seq<string>, open: string -> OpenResult): RegistryState
  {
    var hellfire := FirstOpened(paths, "hellfire.mpq", open);
    st.(mpqs := st.mpqs.(hellfire := hellfire),
        events := st.events + if hellfire.None? then [InsertCdRequested("hellfire.mpq")] else [])
  }

  /**
   * Lines 277-283 of `LoadGameArchives` (packed): the class archives; the
   * bard and barbarian flags are switched on by their archives and never off.
   */
  function ClassArchivesStage(st: RegistryState, paths: seq<string>, open: string -> OpenResult): RegistryState
  {
    var bard := FirstOpened(paths, "hfbard.mpq", open);
    var barb := FirstOpened(paths, "hfbarb.mpq", open);
    st.(mpqs := st.mpqs.(hfmonk := FirstOpened(paths, "hfmonk.mpq", open), hfbard := bard, hfbarb := barb),
        gbBard := st.gbBard || bard.Some?,
        gbBarbarian := st.gbBarbarian || barb.Some?)
  }

  /**
   * Lines 284-290 of `LoadGameArchives` (packed): the music and voice
   * archives; without the monk, the music or the voice archive the program
   * shows a dialog and quits with status 1.
   */
  function SoundArchivesStage(st: RegistryState, paths: seq<string>, open: string -> OpenResult): RegistryState
  {
    var music := FirstOpened(paths, "hfmusic.mpq", open);
    var voice := FirstOpened(paths, "hfvoice.mpq", open);
    st.(mpqs := st.mpqs.(hfmusic := music, hfvoice := voice),
        events := st.events + MandatorySubsetCheck(st.mpqs.hfmonk.Some? && music.Some? && voice.Some?))
  }

  /** `LoadGameArchives` of the packed build: the four steps in source order. */
  function PackedGameStage(st: RegistryState, paths: seq<string>, host: Host, headless: bool): RegistryState
  {
    var main := MainDataStage(st, paths, host, headless);
    SoundArchivesStage(ClassArchivesStage(HellfireStage(main, paths, host.open), paths, host.open), paths, host.open)
  }

  /** Whether the Hellfire directory holds the monk art, the music and the voice files. */
  predicate UnpackedHellfireComplete(dir: string, fileExists: string -> bool)
  {
    && fileExists(dir + "plrgfx/monk/mha/mhaas.clx")
    && (fileExists(dir + "music/dlvlf.wav") || fileExists(dir + "music/dlvlf.mp3"))
    && (fileExists(dir + "sfx/hellfire/cowsut1.wav") || fileExists(dir + "sfx/hellfire/cowsut1.mp3"))
  }

  /** Lines 231-238 of `LoadGameArchives` (unpacked): the main data directory and the title-art check. */
  function UnpackedMainDataStage(st: RegistryState, paths: seq<string>, host: Host, headless: bool): RegistryState
  {
    st.(dataPaths := st.dataPaths.(diabdat := FirstUnpacked(paths, "diabdat", host.fileExists)),
        events := st.events + TitleArtCheck(headless, host, "ui_art\\title.clx"))
  }

  /**
   * Lines 239-257 of `LoadGameArchives` (unpacked): the Hellfire directory,
   * the class flags switched off, and the check of its monk, music and voice
   * files. Without a Hellfire directory the source goes on to read the empty
   * optional; the model records that and stops there.
   */
  function UnpackedHellfireStage(st: RegistryState, paths: seq<string>, fileExists: string -> bool): RegistryState
  {
    var hellfire := FirstUnpacked(paths, "hellfire", fileExists);
    var found := st.(dataPaths := st.dataPaths.(hellfire := hellfire));
    match hellfire
    case None =>
      found.(events := st.events + [InsertCdRequested("hellfire"), EmptyPathDereferenced])
    case Some(dir) =>
      found.(gbBard := false, gbBarbarian := false,
             events := st.events + MandatorySubsetCheck(UnpackedHellfireComplete(dir, fileExists)))
  }

  /** `LoadGameArchives` of the unpacked build: the two steps in source order. */
  function UnpackedGameStage(st: RegistryState, paths: seq<string>, host: Host, headless: bool): RegistryState
  {
    UnpackedHellfireStage(UnpackedMainDataStage(st, paths, host, headless), paths, host.fileExists)
  }

  /** `LoadGameArchives`: the stage of the build mode. */
  function GameStage(st: RegistryState, build: Build, paths: seq<string>, host: Host, headless: bool): RegistryState
  {
    if build.mode == Packed then PackedGameStage(st, paths, host, headless)
    else UnpackedGameStage(st, paths, host, headless)
  }

  // ---------------------------------------------------------------- the registry object

  /**
   * The globals of Source/init.cpp as one object. `mpqs` holds the `*_mpq`
   * slots and `dataPaths` the `*_data_path` slots; only the pair of the
   * build mode is ever written. `gbBard` and `gbBarbarian` are defined
   * outside the file, so their values at start are a parameter.
   */
  class ArchiveRegistry {
    const build: Build
    const host: Host

    var mpqs: Archives
    var dataPaths: DataPaths
    var gbBard: bool
    var gbBarbarian: bool
    var events: seq<Event>

    function State(): RegistryState
      reads this
    {
      RegistryState(mpqs, dataPaths, gbBard, gbBarbarian, events)
    }

    ghost predicate Valid()
      reads this
    {
      WellFormed(State(), build.mode)
    }

    constructor (build: Build, host: Host, gbBard: bool, gbBarbarian: bool)
      ensures Valid()
      ensures State() == RegistryState(NoArchives, NoDataPaths, gbBard, gbBarbarian, [])
      ensures this.build == build && this.host == host
    {
      this.build := build;
      this.host := host;
      mpqs := NoArchives;
      dataPaths := NoDataPaths;
      this.gbBard := gbBard;
      this.gbBarbarian := gbBarbarian;
      events := [];
    }

    method InitCleanup(gbIsMultiplayer: bool, gbRunGame: bool)
      requires Valid()
      modifies this
      ensures Valid()
      ensures State() == Cleanup(old(State()), build.mode, gbIsMultiplayer && gbRunGame)
    {
      if gbIsMultiplayer && gbRunGame {
        events := events + [HeroWritten];
        events := events + [StashWritten];
      }
      if build.mode == Unpacked {
        dataPaths := dataPaths.(lang := None);
        dataPaths := dataPaths.(font := None);
        dataPaths := dataPaths.(hellfire := None);
        dataPaths := dataPaths.(diabdat := None);
        dataPaths := dataPaths.(spawn := None);
      } else {
        mpqs := mpqs.(spawn := None);
        mpqs := mpqs.(diabdat := None);
        mpqs := mpqs.(hellfire := None);
        mpqs := mpqs.(hfmonk := None);
        mpqs := mpqs.(hfbard := None);
        mpqs := mpqs.(hfbarb := None);
        mpqs := mpqs.(hfmusic := None);
        mpqs := mpqs.(hfvoice := None);
        mpqs := mpqs.(lang := None);
        mpqs := mpqs.(font := None);
        mpqs := mpqs.(sotw := None);
      }
      events := events + [NetClosed];
    }

    method LoadCoreArchives()
      requires Valid()
      modifies this
      ensures Valid()
      ensures State() == CoreStage(old(State()), build, SearchPathList(host.env), host)
    {
      var paths := GetMPQSearchPaths(host.env);
      if build.mode == Unpacked {
        var font := FindUnpackedMpqData(paths, "fonts", host.fileExists);
        dataPaths := dataPaths.(font := font);
      } else {
        if build.loadsSotw {
          // sotw.mpq first, for the font of the error messages
          var sotw := LoadMPQ(paths, "sotw.mpq", host.open);
          mpqs := mpqs.(sotw := sotw);
        }
        var font := LoadMPQ(paths, "fonts.mpq", host.open);
        mpqs := mpqs.(font := font);
      }
    }

    method LoadLanguageArchive(code: string)
      requires Valid()
      modifies this
      ensures Valid()
      ensures State() == LanguageStage(old(State()), build, SearchPathList(host.env), host, code)
    {
      if build.mode == Unpacked {
        dataPaths := dataPaths.(lang := None);
      } else {
        mpqs := mpqs.(lang := None);
      }
      if code != "en" {
        var langMpqName := code;
        var paths := GetMPQSearchPaths(host.env);
        if build.mode == Unpacked {
          var lang := FindUnpackedMpqData(paths, langMpqName, host.fileExists);
          dataPaths := dataPaths.(lang := lang);
        } else {
          langMpqName := langMpqName + ".mpq";
          var lang := LoadMPQ(paths, langMpqName, host.open);
          mpqs := mpqs.(lang := lang);
        }
      }
    }

    method LoadGameArchives(headless: bool)
      requires Valid()
      modifies this
      ensures Valid()
      ensures State() == GameStage(old(State()), build, SearchPathList(host.env), host, headless)
    {
      var paths := GetMPQSearchPaths(host.env);
      if build.mode == Unpacked {
        LoadUnpackedGameData(paths, headless);
      } else {
        LoadPackedGameArchives(paths, headless);
      }
    }

    /** The unpacked branch of `LoadGameArchives`. */
    method LoadUnpackedGameData(paths: seq<string>, headless: bool)
      requires Valid() && build.mode == Unpacked
      modifies this
      ensures Valid()
      ensures State() == UnpackedGameStage(old(State()), paths, host, headless)
    {
      LoadUnpackedMainData(paths, headless);
      LoadUnpackedHellfire(paths);
    }

    method LoadUnpackedMainData(paths: seq<string>, headless: bool)
      requires Valid() && build.mode == Unpacked
      modifies this
      ensures Valid()
      ensures State() == UnpackedMainDataStage(old(State()), paths, host, headless)
    {
      var diabdat := FindUnpackedMpqData(paths, "diabdat", host.fileExists);
      dataPaths := dataPaths.(diabdat := diabdat);
      if !headless && !host.findAsset("ui_art\\title.clx") {
        events := events + [InsertCdRequested("diabdat.mpq")];
      }
    }

    method LoadUnpackedHellfire(paths: seq<string>)
      requires Valid() && build.mode == Unpacked
      modifies this
      ensures Valid()
      ensures State() == UnpackedHellfireStage(old(State()), paths, host.fileExists)
    {
      var hellfire := FindUnpackedMpqData(paths, "hellfire", host.fileExists);
      dataPaths := dataPaths.(hellfire := hellfire);
      if dataPaths.hellfire.None? {
        events := events + [InsertCdRequested("hellfire")];
        events := events + [EmptyPathDereferenced];
        return;
      }
      var dir := dataPaths.hellfire.value;
      var hasMonk := host.fileExists(dir + "plrgfx/monk/mha/mhaas.clx");
      var hasMusic := host.fileExists(dir + "music/dlvlf.wav") || host.fileExists(dir + "music/dlvlf.mp3");
      var hasVoice := host.fileExists(dir + "sfx/hellfire/cowsut1.wav") || host.fileExists(dir + "sfx/hellfire/cowsut1.mp3");
      // bard and barbarian share the rogue's and the warrior's paths unpacked
      gbBard := false;
      gbBarbarian := false;
      if !hasMonk || !hasMusic || !hasVoice {
        events := events + [HellfireMissingDialog];
        events := events + [Quit(1)];
      }
    }

    /** The packed branch of `LoadGameArchives`. */
    method LoadPackedGameArchives(paths: seq<string>, headless: bool)
      requires Valid() && build.mode == Packed
      modifies this
      ensures Valid()
      ensures State() == PackedGameStage(old(State()), paths, host, headless)
    {
      LoadMainData(paths, headless);
      LoadHellfire(paths);
      LoadClassArchives(paths);
      LoadSoundArchives(paths);
    }

    method LoadMainData(paths: seq<string>, headless: bool)
      requires Valid() && build.mode == Packed
      modifies this
      ensures Valid()
      ensures State() == MainDataStage(old(State()), paths, host, headless)
    {
      var diabdat := LoadMPQ(paths, "DIABDAT.MPQ", host.open);
      mpqs := mpqs.(diabdat := diabdat);
      if mpqs.diabdat.None? {
        // upper case on the original CD and the GOG version
        diabdat := LoadMPQ(paths, "diabdat.mpq", host.open);
        mpqs := mpqs.(diabdat := diabdat);
      }
      if !headless && !host.findAsset("ui_art\\title.pcx") {
        events := events + [InsertCdRequested("diabdat.mpq")];
      }
    }

    method LoadHellfire(paths: seq<string>)
      requires Valid() && build.mode == Packed
      modifies this
      ensures Valid()
      ensures State() == HellfireStage(old(State()), paths, host.open)
    {
      var hellfire := LoadMPQ(paths, "hellfire.mpq", host.open);
      mpqs := mpqs.(hellfire := hellfire);
      if mpqs.hellfire.None? {
        events := events + [InsertCdRequested("hellfire.mpq")];
      }
    }

    method LoadClassArchives(paths: seq<string>)
      requires Valid() && build.mode == Packed
      modifies this
      ensures Valid()
      ensures State() == ClassArchivesStage(old(State()), paths, host.open)
    {
      var monk := LoadMPQ(paths, "hfmonk.mpq", host.open);
      mpqs := mpqs.(hfmonk := monk);
      var bard := LoadMPQ(paths, "hfbard.mpq", host.open);
      mpqs := mpqs.(hfbard := bard);
      if mpqs.hfbard.Some? {
        gbBard := true;
      }
      var barb := LoadMPQ(paths, "hfbarb.mpq", host.open);
      mpqs := mpqs.(hfbarb := barb);
      if mpqs.hfbarb.Some? {
        gbBarbarian := true;
      }
    }

    method LoadSoundArchives(paths: seq<string>)
      requires Valid() && build.mode == Packed
      modifies this
      ensures Valid()
      ensures State() == SoundArchivesStage(old(State()), paths, host.open)
    {
      var music := LoadMPQ(paths, "hfmusic.mpq", host.open);
      mpqs := mpqs.(hfmusic := music);
      var voice := LoadMPQ(paths, "hfvoice.mpq", host.open);
      mpqs := mpqs.(hfvoice := voice);
      if mpqs.hfmonk.None? || mpqs.hfmusic.None? || mpqs.hfvoice.None? {
        events := events + [HellfireMissingDialog];
        events := events + [Quit(1)];
      }
    }
  }
}
