/**
 * Source/objdat.h: the object flags, the six predicates over them, and the
 * enumerations that index the object tables.
 *
 * The enumerations are `int8_t`-backed C++ enums. Each is modelled as the
 * range of values its enumerators take, with one constant per enumerator:
 * the enumerators without an initializer count up from 0 in declaration
 * order, and the `..._NONE`/`..._NULL`/`..._INVALID` ones are -1.
 */
module ObjDat {
  newtype int8 = x: int | -0x80 <= x < 0x80
  newtype uint8 = x: int | 0 <= x < 0x100

  // ---------------------------------------------------------------- enumerations

  /** `theme_id`: seventeen themes and `THEME_NONE`. */
  type ThemeId = t: int8 | -1 <= t <= 16

  const THEME_NONE: ThemeId := -1
  const THEME_BARREL: ThemeId := 0
  const THEME_SHRINE: ThemeId := 1
  const THEME_MONSTPIT: ThemeId := 2
  const THEME_SKELROOM: ThemeId := 3
  const THEME_TREASURE: ThemeId := 4
  const THEME_LIBRARY: ThemeId := 5
  const THEME_TORTURE: ThemeId := 6
  const THEME_BLOODFOUNTAIN: ThemeId := 7
  const THEME_DECAPITATED: ThemeId := 8
  const THEME_PURIFYINGFOUNTAIN: ThemeId := 9
  const THEME_ARMORSTAND: ThemeId := 10
  const THEME_GOATSHRINE: ThemeId := 11
  const THEME_CAULDRON: ThemeId := 12
  const THEME_MURKYFOUNTAIN: ThemeId := 13
  const THEME_TEARFOUNTAIN: ThemeId := 14
  const THEME_BRNCROSS: ThemeId := 15
  const THEME_WEAPONRACK: ThemeId := 16

  /** `object_graphic_id`: sixty-eight graphics, `OFILE_LAST` and `OFILE_NULL`. */
  type ObjectGraphicId = g: int8 | -1 <= g <= 67

  const OFILE_NULL: ObjectGraphicId := -1
  const OFILE_L1BRAZ: ObjectGraphicId := 0
  const OFILE_L1DOORS: ObjectGraphicId := 1
  const OFILE_LEVER: ObjectGraphicId := 2
  const OFILE_CHEST1: ObjectGraphicId := 3
  const OFILE_CHEST2: ObjectGraphicId := 4
  const OFILE_BANNER: ObjectGraphicId := 5
  const OFILE_SKULPILE: ObjectGraphicId := 6
  const OFILE_SKULFIRE: ObjectGraphicId := 7
  const OFILE_SKULSTIK: ObjectGraphicId := 8
  const OFILE_CRUXSK1: ObjectGraphicId := 9
  const OFILE_CRUXSK2: ObjectGraphicId := 10
  const OFILE_CRUXSK3: ObjectGraphicId := 11
  const OFILE_BOOK1: ObjectGraphicId := 12
  const OFILE_BOOK2: ObjectGraphicId := 13
  const OFILE_ROCKSTAN: ObjectGraphicId := 14
  const OFILE_ANGEL: ObjectGraphicId := 15
  const OFILE_CHEST3: ObjectGraphicId := 16
  const OFILE_BURNCROS: ObjectGraphicId := 17
  const OFILE_CANDLE2: ObjectGraphicId := 18
  const OFILE_NUDE2: ObjectGraphicId := 19
  const OFILE_SWITCH4: ObjectGraphicId := 20
  const OFILE_TNUDEM: ObjectGraphicId := 21
  const OFILE_TNUDEW: ObjectGraphicId := 22
  const OFILE_TSOUL: ObjectGraphicId := 23
  const OFILE_L2DOORS: ObjectGraphicId := 24
  const OFILE_WTORCH4: ObjectGraphicId := 25
  const OFILE_WTORCH3: ObjectGraphicId := 26
  const OFILE_SARC: ObjectGraphicId := 27
  const OFILE_FLAME1: ObjectGraphicId := 28
  const OFILE_PRSRPLT1: ObjectGraphicId := 29
  const OFILE_TRAPHOLE: ObjectGraphicId := 30
  const OFILE_MINIWATR: ObjectGraphicId := 31
  const OFILE_WTORCH2: ObjectGraphicId := 32
  const OFILE_WTORCH1: ObjectGraphicId := 33
  const OFILE_BCASE: ObjectGraphicId := 34
  const OFILE_BSHELF: ObjectGraphicId := 35
  const OFILE_WEAPSTND: ObjectGraphicId := 36
  const OFILE_BARREL: ObjectGraphicId := 37
  const OFILE_BARRELEX: ObjectGraphicId := 38
  const OFILE_LSHRINEG: ObjectGraphicId := 39
  const OFILE_RSHRINEG: ObjectGraphicId := 40
  const OFILE_BLOODFNT: ObjectGraphicId := 41
  const OFILE_DECAP: ObjectGraphicId := 42
  const OFILE_PEDISTL: ObjectGraphicId := 43
  const OFILE_L3DOORS: ObjectGraphicId := 44
  const OFILE_PFOUNTN: ObjectGraphicId := 45
  const OFILE_ARMSTAND: ObjectGraphicId := 46
  const OFILE_GOATSHRN: ObjectGraphicId := 47
  const OFILE_CAULDREN: ObjectGraphicId := 48
  const OFILE_MFOUNTN: ObjectGraphicId := 49
  const OFILE_TFOUNTN: ObjectGraphicId := 50
  const OFILE_ALTBOY: ObjectGraphicId := 51
  const OFILE_MCIRL: ObjectGraphicId := 52
  const OFILE_BKSLBRNT: ObjectGraphicId := 53
  const OFILE_MUSHPTCH: ObjectGraphicId := 54
  const OFILE_LZSTAND: ObjectGraphicId := 55
  const OFILE_POD: ObjectGraphicId := 56
  const OFILE_PODEX: ObjectGraphicId := 57
  const OFILE_L5DOORS: ObjectGraphicId := 58
  const OFILE_L5LEVER: ObjectGraphicId := 59
  const OFILE_L5CANDLE: ObjectGraphicId := 60
  const OFILE_L5SARC: ObjectGraphicId := 61
  const OFILE_URN: ObjectGraphicId := 62
  const OFILE_URNEX: ObjectGraphicId := 63
  const OFILE_L5BOOKS: ObjectGraphicId := 64
  const OFILE_S1DOORS: ObjectGraphicId := 65
  const OFILE_STORCH2SE: ObjectGraphicId := 66
  const OFILE_STORCH2SW: ObjectGraphicId := 67
  const OFILE_LAST: ObjectGraphicId := OFILE_STORCH2SW

  /** `_object_id`: one hundred and fifteen object kinds and `OBJ_NULL`. */
  type ObjectId = o: int8 | -1 <= o <= 114

  const OBJ_NULL: ObjectId := -1
  const OBJ_L1LIGHT: ObjectId := 0
  const OBJ_L1LDOOR: ObjectId := 1
  const OBJ_L1RDOOR: ObjectId := 2
  const OBJ_SKFIRE: ObjectId := 3
  const OBJ_LEVER: ObjectId := 4
  const OBJ_CHEST1: ObjectId := 5
  const OBJ_CHEST2: ObjectId := 6
  const OBJ_CHEST3: ObjectId := 7
  const OBJ_CANDLE1: ObjectId := 8
  const OBJ_CANDLE2: ObjectId := 9
  const OBJ_CANDLEO: ObjectId := 10
  const OBJ_BANNERL: ObjectId := 11
  const OBJ_BANNERM: ObjectId := 12
  const OBJ_BANNERR: ObjectId := 13
  const OBJ_SKPILE: ObjectId := 14
  const OBJ_SKSTICK1: ObjectId := 15
  const OBJ_SKSTICK2: ObjectId := 16
  const OBJ_SKSTICK3: ObjectId := 17
  const OBJ_SKSTICK4: ObjectId := 18
  const OBJ_SKSTICK5: ObjectId := 19
  const OBJ_CRUX1: ObjectId := 20
  const OBJ_CRUX2: ObjectId := 21
  const OBJ_CRUX3: ObjectId := 22
  const OBJ_STAND: ObjectId := 23
  const OBJ_ANGEL: ObjectId := 24
  const OBJ_BOOK2L: ObjectId := 25
  const OBJ_BCROSS: ObjectId := 26
  const OBJ_NUDEW2R: ObjectId := 27
  const OBJ_SWITCHSKL: ObjectId := 28
  const OBJ_TNUDEM1: ObjectId := 29
  const OBJ_TNUDEM2: ObjectId := 30
  const OBJ_TNUDEM3: ObjectId := 31
  const OBJ_TNUDEM4: ObjectId := 32
  const OBJ_TNUDEW1: ObjectId := 33
  const OBJ_TNUDEW2: ObjectId := 34
  const OBJ_TNUDEW3: ObjectId := 35
  const OBJ_TORTURE1: ObjectId := 36
  const OBJ_TORTURE2: ObjectId := 37
  const OBJ_TORTURE3: ObjectId := 38
  const OBJ_TORTURE4: ObjectId := 39
  const OBJ_TORTURE5: ObjectId := 40
  const OBJ_BOOK2R: ObjectId := 41
  const OBJ_L2LDOOR: ObjectId := 42
  const OBJ_L2RDOOR: ObjectId := 43
  const OBJ_TORCHL: ObjectId := 44
  const OBJ_TORCHR: ObjectId := 45
  const OBJ_TORCHL2: ObjectId := 46
  const OBJ_TORCHR2: ObjectId := 47
  const OBJ_SARC: ObjectId := 48
  const OBJ_FLAMEHOLE: ObjectId := 49
  const OBJ_FLAMELVR: ObjectId := 50
  const OBJ_WATER: ObjectId := 51
  const OBJ_BOOKLVR: ObjectId := 52
  const OBJ_TRAPL: ObjectId := 53
  const OBJ_TRAPR: ObjectId := 54
  const OBJ_BOOKSHELF: ObjectId := 55
  const OBJ_WEAPRACK: ObjectId := 56
  const OBJ_BARREL: ObjectId := 57
  const OBJ_BARRELEX: ObjectId := 58
  const OBJ_SHRINEL: ObjectId := 59
  const OBJ_SHRINER: ObjectId := 60
  const OBJ_SKELBOOK: ObjectId := 61
  const OBJ_BOOKCASEL: ObjectId := 62
  const OBJ_BOOKCASER: ObjectId := 63
  const OBJ_BOOKSTAND: ObjectId := 64
  const OBJ_BOOKCANDLE: ObjectId := 65
  const OBJ_BLOODFTN: ObjectId := 66
  const OBJ_DECAP: ObjectId := 67
  const OBJ_TCHEST1: ObjectId := 68
  const OBJ_TCHEST2: ObjectId := 69
  const OBJ_TCHEST3: ObjectId := 70
  const OBJ_BLINDBOOK: ObjectId := 71
  const OBJ_BLOODBOOK: ObjectId := 72
  const OBJ_PEDESTAL: ObjectId := 73
  const OBJ_L3LDOOR: ObjectId := 74
  const OBJ_L3RDOOR: ObjectId := 75
  const OBJ_PURIFYINGFTN: ObjectId := 76
  const OBJ_ARMORSTAND: ObjectId := 77
  const OBJ_ARMORSTANDN: ObjectId := 78
  const OBJ_GOATSHRINE: ObjectId := 79
  const OBJ_CAULDRON: ObjectId := 80
  const OBJ_MURKYFTN: ObjectId := 81
  const OBJ_TEARFTN: ObjectId := 82
  const OBJ_ALTBOY: ObjectId := 83
  const OBJ_MCIRCLE1: ObjectId := 84
  const OBJ_MCIRCLE2: ObjectId := 85
  const OBJ_STORYBOOK: ObjectId := 86
  const OBJ_STORYCANDLE: ObjectId := 87
  const OBJ_STEELTOME: ObjectId := 88
  const OBJ_WARARMOR: ObjectId := 89
  const OBJ_WARWEAP: ObjectId := 90
  const OBJ_TBCROSS: ObjectId := 91
  const OBJ_WEAPONRACK: ObjectId := 92
  const OBJ_WEAPONRACKN: ObjectId := 93
  const OBJ_MUSHPATCH: ObjectId := 94
  const OBJ_LAZSTAND: ObjectId := 95
  const OBJ_SLAINHERO: ObjectId := 96
  const OBJ_SIGNCHEST: ObjectId := 97
  const OBJ_BOOKSHELFR: ObjectId := 98
  const OBJ_POD: ObjectId := 99
  const OBJ_PODEX: ObjectId := 100
  const OBJ_URN: ObjectId := 101
  const OBJ_URNEX: ObjectId := 102
  const OBJ_L5BOOKS: ObjectId := 103
  const OBJ_L5CANDLE: ObjectId := 104
  const OBJ_L5LDOOR: ObjectId := 105
  const OBJ_L5RDOOR: ObjectId := 106
  const OBJ_L5LEVER: ObjectId := 107
  const OBJ_L5SARC: ObjectId := 108
  const OBJ_S1LDOOR: ObjectId := 109
  const OBJ_S1RDOOR: ObjectId := 110
  const OBJ_STORCHL: ObjectId := 111
  const OBJ_STORCHR: ObjectId := 112
  const OBJ_STORCHL2: ObjectId := 113
  const OBJ_STORCHR2: ObjectId := 114

  /** `quest_id`: twenty-four quests and `Q_INVALID`. */
  type QuestId = q: int8 | -1 <= q <= 23

  const Q_INVALID: QuestId := -1
  const Q_ROCK: QuestId := 0
  const Q_MUSHROOM: QuestId := 1
  const Q_GARBUD: QuestId := 2
  const Q_ZHAR: QuestId := 3
  const Q_VEIL: QuestId := 4
  const Q_DIABLO: QuestId := 5
  const Q_BUTCHER: QuestId := 6
  const Q_LTBANNER: QuestId := 7
  const Q_BLIND: QuestId := 8
  const Q_BLOOD: QuestId := 9
  const Q_ANVIL: QuestId := 10
  const Q_WARLORD: QuestId := 11
  const Q_SKELKING: QuestId := 12
  const Q_PWATER: QuestId := 13
  const Q_SCHAMB: QuestId := 14
  const Q_BETRAYER: QuestId := 15
  const Q_GRAVE: QuestId := 16
  const Q_FARMER: QuestId := 17
  const Q_GIRL: QuestId := 18
  const Q_TRADER: QuestId := 19
  const Q_DEFILER: QuestId := 20
  const Q_NAKRUL: QuestId := 21
  const Q_CORNSTN: QuestId := 22
  const Q_JERSEY: QuestId := 23

  /** The declared length of `AllObjects`, the table of object kinds. */
  const AllObjectsLength: nat := 115

  /** Every object kind but `OBJ_NULL` indexes `AllObjects`, and the last one is its last entry. */
  lemma ObjectIdsIndexAllObjects(o: ObjectId)
    ensures o != OBJ_NULL ==> 0 <= o as int < AllObjectsLength
    ensures OBJ_L1LIGHT as int == 0 && OBJ_STORCHR2 as int == AllObjectsLength - 1
    ensures OBJ_NULL as int == -1
  {
  }

  /** `OFILE_LAST` names the final graphic; `OFILE_NULL` lies below the first. */
  lemma GraphicIdEnds(g: ObjectGraphicId)
    ensures OFILE_LAST == OFILE_STORCH2SW && OFILE_LAST as int == 67
    ensures OFILE_NULL as int == -1 && OFILE_L1BRAZ as int == 0
    ensures g != OFILE_NULL ==> OFILE_L1BRAZ <= g <= OFILE_LAST
  {
  }

  /** The themes run from `THEME_BARREL` = 0 to `THEME_WEAPONRACK` = 16, with `THEME_NONE` = -1 outside them. */
  lemma ThemeIdEnds(t: ThemeId)
    ensures THEME_BARREL as int == 0 && THEME_WEAPONRACK as int == 16 && THEME_NONE as int == -1
    ensures t != THEME_NONE ==> THEME_BARREL <= t <= THEME_WEAPONRACK
  {
  }

  // ---------------------------------------------------------------- flags

  /**
   * `ObjectDataFlags`, a `uint8_t` enum class used as a bit set
   * (`use_enum_as_flags`): a set of flags is a byte.
   */
  type ObjectDataFlags = bv8

  /** The six declared flags. */
  datatype ObjectDataFlag = Animated | Solid | MissilesPassThrough | Light | Trap | Breakable

  /** The bit each flag occupies: its position in the declaration. */
  function FlagBit(f: ObjectDataFlag): (k: nat)
    ensures k < 6
  {
    match f
    case Animated => 0
    case Solid => 1
    case MissilesPassThrough => 2
    case Light => 3
    case Trap => 4
    case Breakable => 5
  }

  /** The declared value of each flag: `1U`, `1U << 1`, ..., `1U << 5`. */
  function FlagValue(f: ObjectDataFlag): (v: ObjectDataFlags)
    ensures v == 1 << FlagBit(f)
  {
    match f
    case Animated => 1
    case Solid => 1 << 1
    case MissilesPassThrough => 1 << 2
    case Light => 1 << 3
    case Trap => 1 << 4
    case Breakable => 1 << 5
  }

  /** `HasAnyOf` of the flag utilities: some tested bit is set. */
  predicate HasAnyOf(flags: ObjectDataFlags, test: ObjectDataFlags)
  {
    flags & test != 0
  }

  /** `dungeon_type` is declared in levels/gendung.h, which is not part of this model. */
  type DungeonType = int8

  /** One entry of the object table; the predicates read nothing but `flags`. */
  datatype ObjectData = ObjectData(
    ofindex: ObjectGraphicId,
    minlvl: int8,
    maxlvl: int8,
    olvltype: DungeonType,
    otheme: ThemeId,
    oquest: QuestId,
    flags: ObjectDataFlags,
    animDelay: uint8,
    animLen: uint8,
    animWidth: uint8,
    selFlag: int8)
  {
    /** Bit 0 of `flags`. */
    predicate IsAnimated()
      ensures IsAnimated() <==> flags & 1 == 1
    {
      HasAnyOf(flags, FlagValue(Animated))
    }

    /** Bit 1 of `flags`. */
    predicate IsSolid()
      ensures IsSolid() <==> (flags >> 1) & 1 == 1
    {
      HasAnyOf(flags, FlagValue(Solid))
    }

    /** Bit 2 of `flags`. */
    predicate MissilesPassThrough()
      ensures MissilesPassThrough() <==> (flags >> 2) & 1 == 1
    {
      HasAnyOf(flags, FlagValue(ObjectDataFlag.MissilesPassThrough))
    }

    /** Bit 3 of `flags`. */
    predicate IsLight()
      ensures IsLight() <==> (flags >> 3) & 1 == 1
    {
      HasAnyOf(flags, FlagValue(Light))
    }

    /** Bit 4 of `flags`. */
    predicate IsTrap()
      ensures IsTrap() <==> (flags >> 4) & 1 == 1
    {
      HasAnyOf(flags, FlagValue(Trap))
    }

    /** Bit 5 of `flags`. */
    predicate IsBreakable()
      ensures IsBreakable() <==> (flags >> 5) & 1 == 1
    {
      HasAnyOf(flags, FlagValue(Breakable))
    }
  }

  /** The predicate that reports flag `f`. */
  predicate Reports(d: ObjectData, f: ObjectDataFlag)
  {
    match f
    case Animated => d.IsAnimated()
    case Solid => d.IsSolid()
    case MissilesPassThrough => d.MissilesPassThrough()
    case Light => d.IsLight()
    case Trap => d.IsTrap()
    case Breakable => d.IsBreakable()
  }

  /** 2 to the power `k`. */
  function Pow2(k: nat): nat
  {
    if k == 0 then 1 else 2 * Pow2(k - 1)
  }

  /** The flag values are 1, 2, 4, 8, 16 and 32: single bits, pairwise disjoint, all below `0x40`. */
  lemma FlagValuesAreDistinctBits(f: ObjectDataFlag, g: ObjectDataFlag)
    ensures FlagValue(f) as int == Pow2(FlagBit(f)) && FlagValue(f) < 0x40
    ensures FlagValue(f) != 0 && FlagValue(f) & (FlagValue(f) - 1) == 0
    ensures f != g ==> FlagValue(f) & FlagValue(g) == 0
  {
    match f
    case Animated =>
    case Solid =>
    case MissilesPassThrough =>
    case Light =>
    case Trap =>
    case Breakable => assert Pow2(4) == 16;
  }

  /** Reading one flag's bit out of a byte. */
  lemma BitOfFlag(x: ObjectDataFlags, f: ObjectDataFlag)
    ensures x & FlagValue(f) != 0 <==> (x >> FlagBit(f)) & 1 == 1
  {
    match f
    case Animated =>
    case Solid =>
    case MissilesPassThrough =>
    case Light =>
    case Trap =>
    case Breakable =>
  }

  /** `Reports` is `HasAnyOf` applied to the flag's own value. */
  lemma ReportsTestsFlagValue(d: ObjectData, f: ObjectDataFlag)
    ensures Reports(d, f) <==> HasAnyOf(d.flags, FlagValue(f))
  {
    match f
    case Animated =>
    case Solid =>
    case MissilesPassThrough =>
    case Light =>
    case Trap =>
    case Breakable =>
  }

  /** Each predicate is true exactly when its own bit of `flags` is set. */
  lemma PredicateTestsItsBit(d: ObjectData, f: ObjectDataFlag)
    ensures Reports(d, f) <==> (d.flags >> FlagBit(f)) & 1 == 1
  {
    ReportsTestsFlagValue(d, f);
    BitOfFlag(d.flags, f);
  }

  /** Setting one flag turns its own predicate on and leaves the other five as they were. */
  lemma SettingFlagChangesOnlyItsPredicate(d: ObjectData, f: ObjectDataFlag, g: ObjectDataFlag)
    ensures Reports(d.(flags := d.flags | FlagValue(f)), g) <==> g == f || Reports(d, g)
  {
    ReportsTestsFlagValue(d, g);
    ReportsTestsFlagValue(d.(flags := d.flags | FlagValue(f)), g);
    FlagValuesAreDistinctBits(f, g);
    var x, v, w := d.flags, FlagValue(f), FlagValue(g);
    assert (x | v) & w == (x & w) | (v & w);
  }

  /** Clearing one flag turns its own predicate off and leaves the other five as they were. */
  lemma ClearingFlagChangesOnlyItsPredicate(d: ObjectData, f: ObjectDataFlag, g: ObjectDataFlag)
    ensures Reports(d.(flags := d.flags & !FlagValue(f)), g) <==> g != f && Reports(d, g)
  {
    ReportsTestsFlagValue(d, g);
    ReportsTestsFlagValue(d.(flags := d.flags & !FlagValue(f)), g);
    FlagValuesAreDistinctBits(f, g);
    var x, v, w := d.flags, FlagValue(f), FlagValue(g);
    assert (x & !v) & w == (x & w) & !v;
  }
}
