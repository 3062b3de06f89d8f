/**
 * What the stages of the registry promise: the main-archive retry, the
 * insert-CD request for Hellfire, the quit on a partial Hellfire
 * installation, the class flags, the language archive and the cleanup.
 * The methods of `ArchiveRegistry` are proved equal to these stages, so
 * every fact here holds of the registry object too.
 */
module RegistryProperties {
  import opened Options
  import opened ArchiveSearch
  import opened Registry

  // ---------------------------------------------------------------- the main archive

  /**
   * `DIABDAT.MPQ` wins wherever it stands in the search list; the lower-case
   * name is only a fallback, and the main archive is missing exactly when
   * neither name opens in any search directory.
   */
  lemma DiabdatUpperCaseFirst(paths: seq<string>, open: string -> OpenResult)
    ensures FirstOpened(paths, "DIABDAT.MPQ", open).Some? ==>
      DiabdatArchive(paths, open) == FirstOpened(paths, "DIABDAT.MPQ", open)
    ensures FirstOpened(paths, "DIABDAT.MPQ", open).None? ==>
      DiabdatArchive(paths, open) == FirstOpened(paths, "diabdat.mpq", open)
    ensures DiabdatArchive(paths, open).None? <==>
      forall i :: 0 <= i < |paths| ==> !Opens(open, paths[i] + "DIABDAT.MPQ") && !Opens(open, paths[i] + "diabdat.mpq")
  {
    FirstOpenedIsFirstHit(paths, "DIABDAT.MPQ", open);
    FirstOpenedIsFirstHit(paths, "diabdat.mpq", open);
  }

  // ---------------------------------------------------------------- packed game archives

  /** The packed stage only appends effects, and they come in source order. */
  lemma PackedEventsInOrder(st: RegistryState, paths: seq<string>, host: Host, headless: bool)
    ensures var after := PackedGameStage(st, paths, host, headless);
      && st.events <= after.events
      && NewEvents(st, after) ==
           TitleArtCheck(headless, host, "ui_art\\title.pcx")
           + (if FirstOpened(paths, "hellfire.mpq", host.open).None? then [InsertCdRequested("hellfire.mpq")] else [])
           + MandatorySubsetCheck(FirstOpened(paths, "hfmonk.mpq", host.open).Some?
                                  && FirstOpened(paths, "hfmusic.mpq", host.open).Some?
                                  && FirstOpened(paths, "hfvoice.mpq", host.open).Some?)
  {
    var main := MainDataStage(st, paths, host, headless);
    var withHellfire := HellfireStage(main, paths, host.open);
    var withClasses := ClassArchivesStage(withHellfire, paths, host.open);
    var after := SoundArchivesStage(withClasses, paths, host.open);
    assert withClasses.mpqs.hfmonk == FirstOpened(paths, "hfmonk.mpq", host.open);
    assert after.events == withHellfire.events + NewEvents(withClasses, after);
    assert after.events[|st.events|..] == NewEvents(st, main) + NewEvents(main, withHellfire) + NewEvents(withClasses, after);
  }

  /**
   * `InsertCDDlg("hellfire.mpq")` is requested exactly when `hellfire.mpq`
   * opens in no search directory; the title-art check only ever asks for
   * `diabdat.mpq`.
   */
  lemma PackedHellfireCdRequest(st: RegistryState, paths: seq<string>, host: Host, headless: bool)
    ensures var after := PackedGameStage(st, paths, host, headless);
      && st.events <= after.events
      && (InsertCdRequested("hellfire.mpq") in NewEvents(st, after) <==>
            forall i :: 0 <= i < |paths| ==> !Opens(host.open, paths[i] + "hellfire.mpq"))
  {
    PackedEventsInOrder(st, paths, host, headless);
    FirstOpenedIsFirstHit(paths, "hellfire.mpq", host.open);
    assert InsertCdRequested("diabdat.mpq") != InsertCdRequested("hellfire.mpq") by {
      assert "diabdat.mpq"[0] != "hellfire.mpq"[0];
    }
  }

  /**
   * The program quits with status 1, after the missing-archives dialog and as
   * its last effect, exactly when the monk, the music or the voice archive
   * is missing. The bard and barbarian archives never take part.
   */
  lemma PackedQuitIffMandatoryMissing(st: RegistryState, paths: seq<string>, host: Host, headless: bool)
    ensures var after := PackedGameStage(st, paths, host, headless);
      var missing := FirstOpened(paths, "hfmonk.mpq", host.open).None?
                     || FirstOpened(paths, "hfmusic.mpq", host.open).None?
                     || FirstOpened(paths, "hfvoice.mpq", host.open).None?;
      && st.events <= after.events
      && (Quit(1) in NewEvents(st, after) <==> missing)
      && (HellfireMissingDialog in NewEvents(st, after) <==> missing)
      && (missing ==> after.events[|after.events| - 2..] == [HellfireMissingDialog, Quit(1)])
  {
    PackedEventsInOrder(st, paths, host, headless);
  }

  /**
   * The bard and barbarian flags end up on exactly when they were on before
   * or their archive opens in some search directory: the packed stage never
   * switches them off.
   */
  lemma PackedClassFlags(st: RegistryState, paths: seq<string>, host: Host, headless: bool)
    ensures var after := PackedGameStage(st, paths, host, headless);
      && (after.gbBard <==> st.gbBard || exists i :: 0 <= i < |paths| && Opens(host.open, paths[i] + "hfbard.mpq"))
      && (after.gbBarbarian <==> st.gbBarbarian || exists i :: 0 <= i < |paths| && Opens(host.open, paths[i] + "hfbarb.mpq"))
  {
    FirstOpenedIsFirstHit(paths, "hfbard.mpq", host.open);
    FirstOpenedIsFirstHit(paths, "hfbarb.mpq", host.open);
  }

  /** Starting with both flags off, each flag mirrors whether its optional archive is mounted. */
  lemma FlagsMirrorOptionalArchives(st: RegistryState, paths: seq<string>, host: Host, headless: bool)
    requires !st.gbBard && !st.gbBarbarian
    ensures var after := PackedGameStage(st, paths, host, headless);
      && (after.gbBard <==> after.mpqs.hfbard.Some?)
      && (after.gbBarbarian <==> after.mpqs.hfbarb.Some?)
  {
  }

  /**
   * A reload after `init_cleanup` does not depend on what was mounted
   * before: two packed registries mount the same archives and record the
   * same effects. The class flags are the only thing carried across the
   * cleanup: each ends up on when it was on before or its archive is found.
   */
  lemma ReloadForgetsPreviousArchives(st1: RegistryState, st2: RegistryState, saved1: bool, saved2: bool,
                                      paths: seq<string>, host: Host, headless: bool)
    ensures var cleaned1, cleaned2 := Cleanup(st1, Packed, saved1), Cleanup(st2, Packed, saved2);
      var after1, after2 := PackedGameStage(cleaned1, paths, host, headless), PackedGameStage(cleaned2, paths, host, headless);
      && after1.mpqs == after2.mpqs
      && |cleaned1.events| <= |after1.events| && |cleaned2.events| <= |after2.events|
      && NewEvents(cleaned1, after1) == NewEvents(cleaned2, after2)
      && (after1.gbBard <==> st1.gbBard || after1.mpqs.hfbard.Some?)
      && (after1.gbBarbarian <==> st1.gbBarbarian || after1.mpqs.hfbarb.Some?)
  {
  }

  /**
   * What `LoadGameArchives` leaves alone: the packed build writes only the
   * main, Hellfire, class and sound archives, and the unpacked build only
   * the main and Hellfire directories. Effects are only appended.
   */
  lemma GameStageFrame(st: RegistryState, build: Build, paths: seq<string>, host: Host, headless: bool)
    ensures var after := GameStage(st, build, paths, host, headless);
      && st.events <= after.events
      && (build.mode == Packed ==>
            && after.dataPaths == st.dataPaths
            && after.mpqs.spawn == st.mpqs.spawn && after.mpqs.sotw == st.mpqs.sotw
            && after.mpqs.lang == st.mpqs.lang && after.mpqs.font == st.mpqs.font)
      && (build.mode == Unpacked ==>
            && after.mpqs == st.mpqs
            && after.dataPaths.spawn == st.dataPaths.spawn && after.dataPaths.font == st.dataPaths.font
            && after.dataPaths.lang == st.dataPaths.lang)
  {
    if build.mode == Packed {
      var main := MainDataStage(st, paths, host, headless);
      var hellfire := HellfireStage(main, paths, host.open);
      var classes := ClassArchivesStage(hellfire, paths, host.open);
      assert GameStage(st, build, paths, host, headless) == SoundArchivesStage(classes, paths, host.open);
      assert st.events <= main.events <= hellfire.events;
    } else {
      var main := UnpackedMainDataStage(st, paths, host, headless);
      assert GameStage(st, build, paths, host, headless) == UnpackedHellfireStage(main, paths, host.fileExists);
      assert st.events <= main.events;
    }
  }

  // ---------------------------------------------------------------- unpacked game data

  /**
   * Without a Hellfire directory the unpacked stage asks for the CD and then
   * reaches the empty optional, leaving the flags alone. With one, both
   * flags go off and the program quits with status 1 exactly when the monk
   * art, the music or the voice file is missing from it.
   */
  lemma UnpackedHellfireOutcome(st: RegistryState, paths: seq<string>, host: Host, headless: bool)
    ensures var after := UnpackedGameStage(st, paths, host, headless);
      var hellfire := FirstUnpacked(paths, "hellfire", host.fileExists);
      && st.events <= after.events
      && after.dataPaths.hellfire == hellfire
      && (hellfire.None? ==>
            && after.events[|after.events| - 2..] == [InsertCdRequested("hellfire"), EmptyPathDereferenced]
            && after.gbBard == st.gbBard && after.gbBarbarian == st.gbBarbarian
            && Quit(1) !in NewEvents(st, after))
      && (hellfire.Some? ==>
            && !after.gbBard && !after.gbBarbarian
            && (Quit(1) in NewEvents(st, after) <==> !UnpackedHellfireComplete(hellfire.value, host.fileExists)))
  {
    var main := UnpackedMainDataStage(st, paths, host, headless);
    var after := UnpackedGameStage(st, paths, host, headless);
    var title := TitleArtCheck(headless, host, "ui_art\\title.clx");
    assert after == UnpackedHellfireStage(main, paths, host.fileExists);
    assert main.events == st.events + title;
    assert Quit(1) !in title;
    match FirstUnpacked(paths, "hellfire", host.fileExists)
    case None =>
      var tail := [InsertCdRequested("hellfire"), EmptyPathDereferenced];
      assert after.events == st.events + (title + tail);
      assert NewEvents(st, after) == title + tail;
    case Some(dir) =>
      var tail := MandatorySubsetCheck(UnpackedHellfireComplete(dir, host.fileExists));
      assert after.events == st.events + (title + tail);
      assert NewEvents(st, after) == title + tail;
  }

  /**
   * The Hellfire directory is a search directory followed by `hellfire/`, so
   * the monk, music and voice names it is joined with lie inside it.
   */
  lemma UnpackedHellfireDirectory(paths: seq<string>, fileExists: string -> bool)
    ensures var hellfire := FirstUnpacked(paths, "hellfire", fileExists);
      hellfire.Some? ==> exists k :: 0 <= k < |paths| && hellfire.value == paths[k] + "hellfire/"
  {
    FirstUnpackedIsFirstHit(paths, "hellfire", fileExists);
  }

  // ---------------------------------------------------------------- the core archives

  /**
   * The core stage mounts the first extra-fonts archive (or directory),
   * reloads `sotw.mpq` only on platforms that load it, requests no effect
   * and writes no other slot.
   */
  lemma CoreArchivesFound(st: RegistryState, build: Build, paths: seq<string>, host: Host)
    ensures var after := CoreStage(st, build, paths, host);
      && after.events == st.events && after.gbBard == st.gbBard && after.gbBarbarian == st.gbBarbarian
      && (build.mode == Packed ==>
            && after.dataPaths == st.dataPaths
            && after.mpqs == st.mpqs.(sotw := after.mpqs.sotw, font := after.mpqs.font)
            && (after.mpqs.font.None? <==> forall i :: 0 <= i < |paths| ==> !Opens(host.open, paths[i] + "fonts.mpq"))
            && (build.loadsSotw ==>
                  (after.mpqs.sotw.None? <==> forall i :: 0 <= i < |paths| ==> !Opens(host.open, paths[i] + "sotw.mpq")))
            && (!build.loadsSotw ==> after.mpqs.sotw == st.mpqs.sotw))
      && (build.mode == Unpacked ==>
            && after.mpqs == st.mpqs
            && after.dataPaths == st.dataPaths.(font := after.dataPaths.font)
            && (after.dataPaths.font.None? <==>
                  forall i :: 0 <= i < |paths| ==> !host.fileExists(paths[i] + "fonts" + [DirectorySeparator])))
  {
    FirstOpenedIsFirstHit(paths, "fonts.mpq", host.open);
    FirstOpenedIsFirstHit(paths, "sotw.mpq", host.open);
    FirstUnpackedIsFirstHit(paths, "fonts", host.fileExists);
  }

  // ---------------------------------------------------------------- the language archive

  /**
   * English needs no archive; any other code gets the first `<code>.mpq`
   * (packed) or `<code>/` (unpacked), and is left without one exactly when
   * no search directory holds it. No effect is requested either way.
   */
  lemma LanguageArchiveFound(st: RegistryState, build: Build, paths: seq<string>, host: Host, code: string)
    ensures var after := LanguageStage(st, build, paths, host, code);
      && after.events == st.events
      && (code == "en" && build.mode == Packed ==> after.mpqs.lang.None?)
      && (code == "en" && build.mode == Unpacked ==> after.dataPaths.lang.None?)
      && (code != "en" && build.mode == Packed ==>
            (after.mpqs.lang.None? <==> forall i :: 0 <= i < |paths| ==> !Opens(host.open, paths[i] + (code + ".mpq"))))
      && (code != "en" && build.mode == Unpacked ==>
            (after.dataPaths.lang.None? <==>
               forall i :: 0 <= i < |paths| ==> !host.fileExists(paths[i] + code + [DirectorySeparator])))
  {
    FirstOpenedIsFirstHit(paths, code + ".mpq", host.open);
    FirstUnpackedIsFirstHit(paths, code, host.fileExists);
  }

  /** Loading the language archive only writes the language slot of the build and nothing else. */
  lemma LanguageStageOnlyWritesLanguageSlot(st: RegistryState, build: Build, paths: seq<string>, host: Host, code: string)
    ensures var after := LanguageStage(st, build, paths, host, code);
      && after.gbBard == st.gbBard && after.gbBarbarian == st.gbBarbarian && after.events == st.events
      && (build.mode == Packed ==> after.dataPaths == st.dataPaths && after.mpqs == st.mpqs.(lang := after.mpqs.lang))
      && (build.mode == Unpacked ==> after.mpqs == st.mpqs && after.dataPaths == st.dataPaths.(lang := after.dataPaths.lang))
  {
  }

  /**
   * The slot is reset before the lookup, so a language switch forgets the
   * previous archive, and repeating the load changes nothing.
   */
  lemma LanguageStageIgnoresPreviousLanguage(st: RegistryState, build: Build, paths: seq<string>, host: Host,
                                             code: string, previous: Option<MpqArchive>, previousDir: Option<string>)
    ensures var other := if build.mode == Packed then st.(mpqs := st.mpqs.(lang := previous))
                         else st.(dataPaths := st.dataPaths.(lang := previousDir));
      LanguageStage(other, build, paths, host, code) == LanguageStage(st, build, paths, host, code)
    ensures var once := LanguageStage(st, build, paths, host, code);
      LanguageStage(once, build, paths, host, code) == once
  {
  }

  // ---------------------------------------------------------------- cleanup

  /**
   * `init_cleanup` empties every slot of a well-formed registry, keeps the
   * class flags, saves the hero and the stash only while a multiplayer game
   * runs, and closes the network as its last effect.
   */
  lemma CleanupEmptiesEverySlot(st: RegistryState, mode: Mode, multiplayerGameRunning: bool)
    requires WellFormed(st, mode)
    ensures var after := Cleanup(st, mode, multiplayerGameRunning);
      && after.mpqs == NoArchives && after.dataPaths == NoDataPaths
      && after.gbBard == st.gbBard && after.gbBarbarian == st.gbBarbarian
      && st.events <= after.events
      && NewEvents(st, after) == (if multiplayerGameRunning then [HeroWritten, StashWritten, NetClosed] else [NetClosed])
  {
  }

  /** A second cleanup finds nothing left to empty: only a further network close is recorded. */
  lemma CleanupIdempotentOnSlots(st: RegistryState, mode: Mode, saved1: bool, saved2: bool)
    ensures var once := Cleanup(st, mode, saved1);
      var twice := Cleanup(once, mode, saved2);
      twice.mpqs == once.mpqs && twice.dataPaths == once.dataPaths
      && twice.gbBard == once.gbBard && twice.gbBarbarian == once.gbBarbarian
  {
  }

  // ---------------------------------------------------------------- the unused slots

  /** Every stage leaves the other build mode's slots empty. */
  lemma StagesKeepWellFormed(st: RegistryState, build: Build, paths: seq<string>, host: Host,
                             headless: bool, code: string, saved: bool)
    requires WellFormed(st, build.mode)
    ensures WellFormed(CoreStage(st, build, paths, host), build.mode)
    ensures WellFormed(LanguageStage(st, build, paths, host, code), build.mode)
    ensures WellFormed(GameStage(st, build, paths, host, headless), build.mode)
    ensures WellFormed(Cleanup(st, build.mode, saved), build.mode)
  {
  }
}
