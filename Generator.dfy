/**
 * `GameScriptGenerator`: the object built from a normalised request and the
 * sections it composes. The document is modelled by its structure (title,
 * chapter blocks, NPC entries, levels, ...) rather than by its prose; every
 * `random.choice` is an index chosen by the caller (`Choices`).
 */
module Generator {
  import opened Wrappers
  import opened Text
  import opened Config
  import opened Normalize

  function Min(a: int, b: int): int {
    if a <= b then a else b
  }

  // ---------------------------------------------------------------- document structure

  /** A `#### 第四章{number}：{name}` block of the plot outline with its boss. */
  datatype Chapter = Chapter(number: nat, name: string, boss: string)

  /**
   * A candidate NPC of `generate_characters` before numbering. `feature`
   * holds the source's `'trait'` entry (`trait` is a reserved word in Dafny).
   */
  datatype NpcSlot = NpcSlot(role: string, name: string, feature: string)

  /** An `**NPC-{number}：{name}**` entry of the character section; `feature` is its `特点` line. */
  datatype Npc = Npc(number: nat, role: string, name: string, feature: string)

  /** A `### 关卡{number}：{title}` block of the level design. */
  datatype Level = Level(number: nat, title: string)

  /** The theme-specific paragraph of the world setting. */
  datatype Lore = FantasyLore | ScifiLore | HorrorLore | NoLore

  datatype Worldview = Worldview(themeName: string, themeStyle: string, lore: Lore)

  datatype Characters = Characters(protagonist: string, background: string, npcs: seq<Npc>)

  /** The parts of `generate_full_script`'s document that vary with the request. */
  datatype Script = Script(
    title: string, gameTypeName: string, overview: string, platform: string,
    worldview: Worldview, characters: Characters, chapters: seq<Chapter>,
    levels: seq<Level>, appendixTitle: string, wordCount: nat)

  /** The `metadata` object of `_export_json`. */
  datatype Metadata = Metadata(
    gameType: string, gameTypeName: string, theme: string, themeName: string,
    length: string, wordCount: nat, platform: string, style: string,
    generatedAt: string, chapters: nat, npcs: nat)

  /** The record `_export_json` returns: metadata plus `content` (`markdown`, `title`). */
  datatype Export = Export(metadata: Metadata, markdown: Script, title: string)

  /** The `KeyError` a dictionary lookup raises, with the missing key. */
  datatype KeyError = KeyError(key: string)

  /** The index each `random.choice` call of one `generate_full_script` run picks, in call order. */
  datatype Choices = Choices(
    titlePrefix: nat, titleSuffix: nat, overviewPlot: nat,
    characterPlot: nat, protagonist: nat, ally: nat, mentor: nat, rival: nat, neutral: nat,
    appendixPrefix: nat, appendixSuffix: nat)

  // ---------------------------------------------------------------- pools

  /** `theme_prefixes.get(theme, prefixes)` of `generate_game_name`. */
  function PrefixPool(theme: string): (pool: seq<string>)
    ensures |pool| == (if theme in ["scifi", "fantasy", "horror", "modern"] then 6 else 8)
    ensures theme !in ["scifi", "fantasy", "horror", "modern"] ==> pool == TitlePrefixes
    ensures HasKey(ThemeTitlePrefixes, theme) ==>
              exists i :: 0 <= i < |ThemeTitlePrefixes| && ThemeTitlePrefixes[i] == (theme, pool)
  {
    TitlePoolKeys(theme);
    GetOr(ThemeTitlePrefixes, theme, TitlePrefixes)
  }

  /** `theme_suffixes.get(theme, suffixes)` of `generate_game_name`. */
  function SuffixPool(theme: string): (pool: seq<string>)
    ensures |pool| == (if theme in ["scifi", "fantasy", "horror", "modern"] then 6 else 8)
    ensures theme !in ["scifi", "fantasy", "horror", "modern"] ==> pool == TitleSuffixes
    ensures HasKey(ThemeTitleSuffixes, theme) ==>
              exists i :: 0 <= i < |ThemeTitleSuffixes| && ThemeTitleSuffixes[i] == (theme, pool)
  {
    TitlePoolKeys(theme);
    GetOr(ThemeTitleSuffixes, theme, TitleSuffixes)
  }

  lemma TitlePoolKeys(theme: string)
    ensures HasKey(ThemeTitlePrefixes, theme) <==> theme in ["scifi", "fantasy", "horror", "modern"]
    ensures HasKey(ThemeTitleSuffixes, theme) <==> theme in ["scifi", "fantasy", "horror", "modern"]
    ensures forall i :: 0 <= i < 4 ==> |ThemeTitlePrefixes[i].1| == 6 && |ThemeTitleSuffixes[i].1| == 6
  {
    assert forall i :: 0 <= i < 4 ==> ThemeTitlePrefixes[i].0 == ThemeTitleSuffixes[i].0 == ["scifi", "fantasy", "horror", "modern"][i];
  }

  /** `CHARACTER_NAMES.get(theme, CHARACTER_NAMES['modern'])` of `generate_characters`. */
  function NamesFor(theme: string): (pool: NamePool)
    ensures |pool.male| == 8 && |pool.female| == 8
    ensures theme !in ["fantasy", "scifi", "modern"] ==> pool == CharacterNames[2].1
    ensures HasKey(CharacterNames, theme) ==>
              exists i :: 0 <= i < |CharacterNames| && CharacterNames[i] == (theme, pool)
  {
    assert forall i :: 0 <= i < 3 ==> CharacterNames[i].0 == ["fantasy", "scifi", "modern"][i];
    assert forall i :: 0 <= i < 3 ==> |CharacterNames[i].1.male| == |CharacterNames[i].1.female| == 8;
    GetOr(CharacterNames, theme, Get(CharacterNames, "modern").value)
  }

  /** `PLOT_TEMPLATES.get(game_type, PLOT_TEMPLATES['rpg'])`. */
  function PlotPool(gameType: string): (pool: seq<string>)
    ensures |pool| == 5
    ensures gameType !in ["rpg", "adventure", "horror"] ==> pool == PlotTemplates[0].1
    ensures HasKey(PlotTemplates, gameType) ==>
              exists i :: 0 <= i < |PlotTemplates| && PlotTemplates[i] == (gameType, pool)
  {
    assert forall i :: 0 <= i < 3 ==> PlotTemplates[i].0 == ["rpg", "adventure", "horror"][i];
    assert forall i :: 0 <= i < 3 ==> |PlotTemplates[i].1| == 5;
    GetOr(PlotTemplates, gameType, Get(PlotTemplates, "rpg").value)
  }

  /** The picks of one run fit the pools they index. */
  predicate ChoicesFit(c: Choices, theme: string) {
    && c.titlePrefix < |PrefixPool(theme)| && c.titleSuffix < |SuffixPool(theme)|
    && c.appendixPrefix < |PrefixPool(theme)| && c.appendixSuffix < |SuffixPool(theme)|
    && c.overviewPlot < 5 && c.characterPlot < 5
    && c.protagonist < 8 && c.ally < 8 && c.mentor < 8 && c.rival < 8 && c.neutral < 8
  }

  /** The title `generate_game_name` forms from a prefix pick and a suffix pick. */
  function GameName(theme: string, prefix: nat, suffix: nat): (name: string)
    requires prefix < |PrefixPool(theme)| && suffix < |SuffixPool(theme)|
  {
    PrefixPool(theme)[prefix] + SuffixPool(theme)[suffix]
  }

  /**
   * The themed title pools are used exactly for the themes scifi, fantasy
   * and modern: the `horror` pools are keyed by a string no normalised
   * theme can be.
   */
  lemma TitlePoolsOfNormalisedTheme(raw: string, gameType: string)
    requires IsGameType(gameType)
    ensures var t := ThemeOf(raw, gameType);
      && (|PrefixPool(t)| == 6 <==> t in ["scifi", "fantasy", "modern"])
      && (t !in ["scifi", "fantasy", "modern"] ==> PrefixPool(t) == TitlePrefixes && SuffixPool(t) == TitleSuffixes)
  {
    ThemeNeverHorror(raw, gameType);
  }

  // ---------------------------------------------------------------- characters

  const FullWidthColon: char := '：'

  /** `b` is the second field of `plot.split('：')`, the colon before it at index `i`. */
  predicate IsSecondField(plot: string, b: string, i: int) {
    && 0 <= i < |plot| && plot[i] == FullWidthColon
    && FullWidthColon !in plot[..i]
    && i + 1 + |b| <= |plot| && plot[i + 1..i + 1 + |b|] == b
    && FullWidthColon !in b
    && (i + 1 + |b| == |plot| || plot[i + 1 + |b|] == FullWidthColon)
  }

  /** Index of the first `c` in `s`, or `|s|`. */
  function IndexOf(s: string, c: char): (i: nat)
    ensures i <= |s|
    ensures i < |s| ==> s[i] == c
    ensures c !in s[..i]
    decreases |s|
  {
    if s == [] || s[0] == c then 0
    else
      var i := 1 + IndexOf(s[1..], c);
      assert s[..i] == [s[0]] + s[1..][..i - 1];
      i
  }

  /** `plot.split('：')[1] if '：' in plot else plot`, the protagonist's background. */
  function Background(plot: string): (b: string)
    ensures FullWidthColon !in plot ==> b == plot
    ensures FullWidthColon in plot ==> exists i :: IsSecondField(plot, b, i)
  {
    if FullWidthColon !in plot then plot
    else
      var i := IndexOf(plot, FullWidthColon);
      var rest := plot[i + 1..];
      var b := rest[..IndexOf(rest, FullWidthColon)];
      assert plot[i + 1..i + 1 + |b|] == b;
      assert IsSecondField(plot, b, i);
      b
  }

  /** The list `npcs` of `generate_characters`: roles and traits fixed, names drawn from the pool. */
  function NpcCandidates(pool: NamePool, c: Choices): (slots: seq<NpcSlot>)
    requires c.ally < |pool.female| && c.mentor < |pool.male| && c.rival < |pool.male| && c.neutral < |pool.female|
    ensures |slots| == 4
    ensures forall k :: 0 <= k < 4 ==> slots[k].role == NpcRoles[k] && slots[k].feature == NpcTraits[k]
    ensures slots[0].name in pool.female && slots[1].name in pool.male
    ensures slots[2].name in pool.male && slots[3].name in pool.female
  {
    [ NpcSlot(NpcRoles[0], pool.female[c.ally], NpcTraits[0]),
      NpcSlot(NpcRoles[1], pool.male[c.mentor], NpcTraits[1]),
      NpcSlot(NpcRoles[2], pool.male[c.rival], NpcTraits[2]),
      NpcSlot(NpcRoles[3], pool.female[c.neutral], NpcTraits[3]) ]
  }

  /** The entries `enumerate(slots[:npcCount])` produces, numbered from 1. */
  function NpcEntries(slots: seq<NpcSlot>, npcCount: nat): (npcs: seq<Npc>)
    ensures |npcs| == Min(npcCount, |slots|)
    ensures forall k :: 0 <= k < |npcs| ==>
              npcs[k] == Npc(k + 1, slots[k].role, slots[k].name, slots[k].feature)
  {
    var n := Min(npcCount, |slots|);
    seq(n, k requires 0 <= k < n => Npc(k + 1, slots[k].role, slots[k].name, slots[k].feature))
  }

  /** The character section `generate_characters` builds for a theme, a game type and an NPC count. */
  function CharactersOf(theme: string, gameType: string, npcCount: nat, c: Choices): (ch: Characters)
    requires c.characterPlot < 5 && c.protagonist < 8
    requires c.ally < 8 && c.mentor < 8 && c.rival < 8 && c.neutral < 8
    ensures ch.protagonist in NamesFor(theme).male
    ensures |ch.npcs| == Min(npcCount, 4)
    ensures forall k :: 0 <= k < |ch.npcs| ==>
              ch.npcs[k].number == k + 1 && ch.npcs[k].role == NpcRoles[k] && ch.npcs[k].feature == NpcTraits[k]
  {
    var pool := NamesFor(theme);
    Characters(pool.male[c.protagonist], Background(PlotPool(gameType)[c.characterPlot]),
               NpcEntries(NpcCandidates(pool, c), npcCount))
  }

  /** The loop of `generate_characters`: one numbered entry per slot of `slots[:npcCount]`. */
  method EnumerateNpcs(slots: seq<NpcSlot>, npcCount: nat) returns (npcs: seq<Npc>)
    ensures npcs == NpcEntries(slots, npcCount)
  {
    var shown := slots[..Min(npcCount, |slots|)];
    npcs := [];
    var i := 0;
    while i < |shown|
      invariant 0 <= i <= |shown|
      invariant |npcs| == i
      invariant forall k :: 0 <= k < i ==> npcs[k] == Npc(k + 1, slots[k].role, slots[k].name, slots[k].feature)
    {
      var slot := shown[i];
      npcs := npcs + [Npc(i + 1, slot.role, slot.name, slot.feature)];
      i := i + 1;
    }
  }

  // ---------------------------------------------------------------- plot

  /** The boss type `_generate_boss_description(chapterNum)` names. */
  function BossType(chapterNum: int): (boss: string)
    ensures boss in BossTypes
    ensures 1 <= chapterNum <= |BossTypes| ==> boss == BossTypes[chapterNum - 1]
  {
    BossTypes[(chapterNum - 1) % |BossTypes|]
  }

  /** Boss types repeat with period 8 in the chapter number. */
  lemma BossCycle(chapterNum: int)
    ensures BossType(chapterNum + |BossTypes|) == BossType(chapterNum)
  {
  }

  /** The chapter blocks `generate_plot` emits for a chapter count. */
  function PlotChapters(chapterCount: nat): (chapters: seq<Chapter>)
    ensures |chapters| == Min(chapterCount, |ChapterNames|)
    ensures forall k :: 0 <= k < |chapters| ==>
              chapters[k] == Chapter(k + 1, ChapterNames[k], BossTypes[k])
  {
    var n := Min(chapterCount, |ChapterNames|);
    seq(n, k requires 0 <= k < n => Chapter(k + 1, ChapterNames[k], BossType(k + 1)))
  }

  // ---------------------------------------------------------------- levels and world

  /** The levels `generate_level_design` emits: the third only when `length` is literally medium or long. */
  function LevelDesign(length: string): (levels: seq<Level>)
    ensures |levels| == (if length == "medium" || length == "long" then 3 else 2)
    ensures forall k :: 0 <= k < |levels| ==> levels[k] == Level(k + 1, LevelTitles[k])
  {
    var base := [Level(1, LevelTitles[0]), Level(2, LevelTitles[1])];
    if length in ["medium", "long"] then base + [Level(3, LevelTitles[2])] else base
  }

  /** The theme-specific paragraph of `generate_worldview`. */
  function LoreFor(theme: string): Lore {
    if theme == "fantasy" then FantasyLore
    else if theme == "scifi" then ScifiLore
    else if theme == "horror" then HorrorLore
    else NoLore
  }

  /** `generate_worldview`, which reads `THEME_MAP[theme]` and so fails for a theme outside the table. */
  function WorldviewOf(theme: string): (r: Result<Worldview, KeyError>)
    ensures r.Failure? <==> !IsTheme(theme)
    ensures r.Failure? ==> r.error == KeyError(theme)
    ensures r.Success? ==> exists i :: 0 <= i < |Themes| && Themes[i] == (theme, ThemeInfo(r.value.themeName, r.value.themeStyle))
    ensures r.Success? ==> r.value.lore != HorrorLore
  {
    match Get(Themes, theme)
    case None => Failure(KeyError(theme))
    case Some(info) =>
      IsThemeIff(theme);
      Success(Worldview(info.name, info.style, LoreFor(theme)))
  }

  // ---------------------------------------------------------------- section counts

  /**
   * The sizes of the chapter, NPC and level sections for each length: short
   * 2/3/2, medium 4/4/3, long 7/4/3, and any other string 4/4/2 (medium's
   * chapter and NPC counts but only two levels); NPC entries never exceed 4.
   */
  lemma SectionCounts(length: string, theme: string, gameType: string, c: Choices)
    requires c.characterPlot < 5 && c.protagonist < 8
    requires c.ally < 8 && c.mentor < 8 && c.rival < 8 && c.neutral < 8
    ensures var cfg := ResolveLength(length);
      var chapters := |PlotChapters(cfg.chapters)|;
      var npcs := |CharactersOf(theme, gameType, cfg.npcs, c).npcs|;
      var levels := |LevelDesign(length)|;
      && (length == "short" ==> chapters == 2 && npcs == 3 && levels == 2)
      && (length == "medium" ==> chapters == 4 && npcs == 4 && levels == 3)
      && (length == "long" ==> chapters == 7 && npcs == 4 && levels == 3)
      && (length !in ["short", "medium", "long"] ==> chapters == 4 && npcs == 4 && levels == 2)
  {
  }

  /**
   * The `long` request records 8 NPCs in its metadata while its document
   * holds 4 NPC entries: the record mirrors LENGTH_CONFIG, not the text.
   */
  lemma LongNpcCountExceedsEntries(theme: string, gameType: string, c: Choices)
    requires c.characterPlot < 5 && c.protagonist < 8
    requires c.ally < 8 && c.mentor < 8 && c.rival < 8 && c.neutral < 8
    ensures ResolveLength("long").npcs == 8
    ensures |CharactersOf(theme, gameType, ResolveLength("long").npcs, c).npcs| == 4
  {
  }

  // ---------------------------------------------------------------- the generator object

  class GameScriptGenerator {
    var gameType: string
    var theme: string
    var length: string
    var platform: string
    var style: string
    var timestamp: string
    var wordCount: nat
    var chapterCount: nat
    var npcCount: nat

    /** What `__init__` establishes; the theme is deliberately not required to be a THEME_MAP key. */
    ghost predicate Valid()
      reads this
    {
      IsGameType(gameType) && LengthInfo(wordCount, chapterCount, npcCount) == ResolveLength(length)
    }

    /**
     * `__init__`: normalise the game type, then the theme against it, keep
     * the raw length, and size the document from LENGTH_CONFIG.
     * `timestamp` stands for `datetime.now()`.
     */
    constructor (gameTypeRaw: string, themeRaw: string, length: string, platform: string, style: string,
                 timestamp: string)
      ensures Valid()
      ensures this.gameType == GameTypeOf(gameTypeRaw)
      ensures this.theme == ThemeOf(themeRaw, this.gameType)
      ensures this.length == length && this.platform == platform && this.style == style
      ensures this.timestamp == timestamp
      ensures LengthInfo(wordCount, chapterCount, npcCount) == ResolveLength(length)
    {
      var gt := NormalizeGameType(gameTypeRaw);
      var th := NormalizeTheme(themeRaw, gt);
      var config := ResolveLength(length);
      this.gameType := gt;
      this.theme := th;
      this.length := length;
      this.platform := platform;
      this.style := style;
      this.timestamp := timestamp;
      this.wordCount := config.wordCount;
      this.chapterCount := config.chapters;
      this.npcCount := config.npcs;
    }

    /** `generate_game_name`. */
    method GenerateGameName(prefix: nat, suffix: nat) returns (name: string)
      requires prefix < |PrefixPool(theme)| && suffix < |SuffixPool(theme)|
      ensures name == GameName(theme, prefix, suffix)
    {
      var prefixes := PrefixPool(theme);
      var suffixes := SuffixPool(theme);
      name := prefixes[prefix] + suffixes[suffix];
    }

    /** `generate_worldview`. */
    method GenerateWorldview() returns (r: Result<Worldview, KeyError>)
      ensures r == WorldviewOf(theme)
    {
      r := WorldviewOf(theme);
    }

    /** `generate_characters`: the candidate list, then one entry per `enumerate(npcs[:npc_count])`. */
    method GenerateCharacters(c: Choices) returns (ch: Characters)
      requires c.characterPlot < 5 && c.protagonist < 8
      requires c.ally < 8 && c.mentor < 8 && c.rival < 8 && c.neutral < 8
      ensures ch == CharactersOf(theme, gameType, npcCount, c)
    {
      var pool := NamesFor(theme);
      var plot := PlotPool(gameType)[c.characterPlot];
      var slots := NpcCandidates(pool, c);
      var npcs := EnumerateNpcs(slots, npcCount);
      ch := Characters(pool.male[c.protagonist], Background(plot), npcs);
    }

    /** `generate_plot`: one chapter block per `range(min(chapter_count, len(chapter_names)))`. */
    method GeneratePlot() returns (chapters: seq<Chapter>)
      ensures chapters == PlotChapters(chapterCount)
    {
      chapters := [];
      var n := Min(chapterCount, |ChapterNames|);
      var i := 0;
      while i < n
        invariant 0 <= i <= n
        invariant |chapters| == i
        invariant forall k :: 0 <= k < i ==> chapters[k] == Chapter(k + 1, ChapterNames[k], BossTypes[k])
      {
        var chapterNum := i + 1;
        chapters := chapters + [Chapter(chapterNum, ChapterNames[i], BossType(chapterNum))];
        i := i + 1;
      }
    }

    /** `generate_level_design`: two levels, and a third appended for `medium` and `long`. */
    method GenerateLevelDesign() returns (levels: seq<Level>)
      ensures levels == LevelDesign(length)
    {
      levels := [Level(1, LevelTitles[0]), Level(2, LevelTitles[1])];
      if length in ["medium", "long"] {
        levels := levels + [Level(3, LevelTitles[2])];
      }
    }

    /**
     * `generate_full_script`: title, overview, then the sections in order.
     * The world setting raises `KeyError` when the theme is not a THEME_MAP
     * key, and then no document is produced.
     */
    method GenerateFullScript(c: Choices) returns (r: Result<Script, KeyError>)
      requires Valid() && ChoicesFit(c, theme)
      ensures r.Failure? <==> !IsTheme(theme)
      ensures r.Failure? ==> r.error == KeyError(theme)
      ensures r.Success? ==> r.value == Script(
                GameName(theme, c.titlePrefix, c.titleSuffix), GameTypeInfoOf(gameType).name,
                PlotPool(gameType)[c.overviewPlot], platform, WorldviewOf(theme).value,
                CharactersOf(theme, gameType, npcCount, c), PlotChapters(chapterCount),
                LevelDesign(length), GameName(theme, c.appendixPrefix, c.appendixSuffix), wordCount)
    {
      var title := GenerateGameName(c.titlePrefix, c.titleSuffix);
      var overview := PlotPool(gameType)[c.overviewPlot];
      var world := GenerateWorldview();
      if world.Failure? {
        return Failure(world.error);
      }
      var characters := GenerateCharacters(c);
      var chapters := GeneratePlot();
      var levels := GenerateLevelDesign();
      var appendixTitle := GenerateGameName(c.appendixPrefix, c.appendixSuffix);
      r := Success(Script(title, GameTypeInfoOf(gameType).name, overview, platform, world.value,
                          characters, chapters, levels, appendixTitle, wordCount));
    }

    /**
     * `_export_json`: the metadata mirrors the generator's fields, with the
     * display names looked up from the normalised keys; `THEME_MAP[theme]`
     * raises `KeyError` for a theme outside the table. The title is a fresh
     * `generate_game_name` pick.
     */
    method ExportJson(script: Script, prefix: nat, suffix: nat) returns (r: Result<Export, KeyError>)
      requires Valid()
      requires prefix < |PrefixPool(theme)| && suffix < |SuffixPool(theme)|
      ensures r.Failure? <==> !IsTheme(theme)
      ensures r.Failure? ==> r.error == KeyError(theme)
      ensures r.Success? ==>
                && r.value.metadata == Metadata(gameType, GameTypeInfoOf(gameType).name, theme,
                                                Get(Themes, theme).value.name, length, wordCount,
                                                platform, style, timestamp, chapterCount, npcCount)
                && r.value.markdown == script
                && r.value.title == GameName(theme, prefix, suffix)
    {
      var gameTypeName := GameTypeInfoOf(gameType).name;
      var themeInfo := Get(Themes, theme);
      if themeInfo.None? {
        return Failure(KeyError(theme));
      }
      var title := GenerateGameName(prefix, suffix);
      r := Success(Export(
        Metadata(gameType, gameTypeName, theme, themeInfo.value.name, length, wordCount,
                 platform, style, timestamp, chapterCount, npcCount),
        script, title));
    }
  }

  /** `horror` and `supernatural` are table keys, so both normalise to themselves. */
  lemma HorrorSupernaturalKeys(gameTypeRaw: string, themeRaw: string)
    requires gameTypeRaw == "horror" && themeRaw == "supernatural"
    ensures GameTypeOf(gameTypeRaw) == gameTypeRaw
    ensures IsTheme(themeRaw) && ThemeOf(themeRaw, gameTypeRaw) == themeRaw
  {
    assert GameTypes[3].0 == gameTypeRaw;
    GameTypeOfKey(gameTypeRaw);
    IsThemeIff(themeRaw);
    ThemeOfKey(themeRaw, gameTypeRaw);
  }

  /** `supernatural` has no themed title pools. */
  lemma SupernaturalTitlePools(theme: string)
    requires theme == "supernatural"
    ensures PrefixPool(theme) == TitlePrefixes && SuffixPool(theme) == TitleSuffixes
  {
  }

  /**
   * The request horror / supernatural / short: game type `horror`, theme
   * `supernatural`, two chapter blocks, three NPC entries, and titles drawn
   * from the generic pools (the horror pools are keyed `horror`, not
   * `supernatural`).
   */
  method HorrorSupernaturalShort(gameTypeRaw: string, themeRaw: string, length: string, c: Choices)
    returns (r: Result<Script, KeyError>)
    requires gameTypeRaw == "horror" && themeRaw == "supernatural" && length == "short"
    requires ChoicesFit(c, themeRaw)
    ensures r.Success?
    ensures |r.value.chapters| == 2 && |r.value.characters.npcs| == 3
    ensures r.value.title == TitlePrefixes[c.titlePrefix] + TitleSuffixes[c.titleSuffix]
  {
    HorrorSupernaturalKeys(gameTypeRaw, themeRaw);
    SupernaturalTitlePools(themeRaw);
    var g := new GameScriptGenerator(gameTypeRaw, themeRaw, length, "PC", "epic", "");
    r := g.GenerateFullScript(c);
  }
}
