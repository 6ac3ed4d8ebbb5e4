/**
 * The generator's fixed tables. A Python dict is an ordered sequence of
 * (key, value) items: loops over it visit the items in insertion order,
 * and a lookup of a missing key raises `KeyError` (here: `None`).
 */
module Config {
  import opened Wrappers

  /** The key `key` is present in the dictionary `items`. */
  predicate HasKey<V>(items: seq<(string, V)>, key: string) {
    exists i :: 0 <= i < |items| && items[i].0 == key
  }

  /** No key occurs twice, as in every Python dict. */
  predicate UniqueKeys<V>(items: seq<(string, V)>) {
    forall i, j :: 0 <= i < j < |items| ==> items[i].0 != items[j].0
  }

  /** `items[key]`: the value stored under `key`, or `None` where Python raises `KeyError`. */
  function Get<V>(items: seq<(string, V)>, key: string): (r: Option<V>)
    ensures r.None? <==> !HasKey(items, key)
    ensures r.Some? ==> exists i :: 0 <= i < |items| && items[i] == (key, r.value)
  {
    if items == [] then None
    else if items[0].0 == key then Some(items[0].1)
    else
      var r := Get(items[1..], key);
      assert forall i :: 0 < i < |items| ==> items[i] == items[1..][i - 1];
      r
  }

  /** `items.get(key, default)`. */
  function GetOr<V>(items: seq<(string, V)>, key: string, default: V): (v: V)
    ensures !HasKey(items, key) ==> v == default
    ensures HasKey(items, key) ==> exists i :: 0 <= i < |items| && items[i] == (key, v)
  {
    match Get(items, key)
    case Some(v) => v
    case None => default
  }

  /** In a dict without repeated keys, looking up the i-th key yields the i-th value. */
  lemma {:induction false} GetAt<V>(items: seq<(string, V)>, i: int)
    requires UniqueKeys(items)
    requires 0 <= i < |items|
    ensures Get(items, items[i].0) == Some(items[i].1)
  {
    if i > 0 {
      assert items[0].0 != items[i].0;
      assert UniqueKeys(items[1..]) by {
        forall a, b | 0 <= a < b < |items| - 1 ensures items[1..][a].0 != items[1..][b].0 {
          assert items[1..][a] == items[a + 1] && items[1..][b] == items[b + 1];
        }
      }
      GetAt(items[1..], i - 1);
    }
  }

  // ---------------------------------------------------------------- GAME_TYPES

  datatype GameTypeInfo = GameTypeInfo(name: string, defaultTheme: string, description: string, keywords: seq<string>)

  /** GAME_TYPES, in insertion order. */
  const GameTypes: seq<(string, GameTypeInfo)> := [
    ("rpg", GameTypeInfo("角色扮演游戏", "fantasy", "以角色成长和剧情体验为核心的游戏类型",
                         ["rpg", "role-playing", "角色扮演", "角色游戏"])),
    ("adventure", GameTypeInfo("冒险游戏", "exploration", "以探索和解谜为核心的叙事游戏",
                               ["adventure", "avg", "冒险", "探险"])),
    ("visual_novel", GameTypeInfo("视觉小说", "romance", "以剧情和角色互动为主的文字冒险游戏",
                                  ["visual_novel", "vn", "galgame", "视觉小说", "恋爱模拟"])),
    ("horror", GameTypeInfo("恐怖游戏", "supernatural", "营造恐怖氛围的生存游戏",
                            ["horror", "恐怖", "惊悚", "survival_horror"])),
    ("action", GameTypeInfo("动作游戏", "combat", "以操作技巧和战斗为核心的快节奏游戏",
                            ["action", "动作", "act", "格斗", "射击"])),
    ("strategy", GameTypeInfo("策略游戏", "warfare", "需要战略思考和资源管理的游戏",
                              ["strategy", "slg", "策略", "战略", "战棋"])),
    ("simulation", GameTypeInfo("模拟经营", "management", "模拟现实经营活动的游戏",
                                ["simulation", "sim", "模拟", "经营", "养成"])),
    ("puzzle", GameTypeInfo("解谜游戏", "mystery", "以解谜和逻辑推理为核心的游戏",
                            ["puzzle", "解谜", "密室", "推理"]))
  ]

  predicate IsGameType(key: string) {
    HasKey(GameTypes, key)
  }

  /** `GAME_TYPES[key]`. */
  function GameTypeInfoOf(key: string): (info: GameTypeInfo)
    requires IsGameType(key)
  {
    Get(GameTypes, key).value
  }

  /** `GAME_TYPES[key]['default_theme']`. */
  function DefaultTheme(key: string): string
    requires IsGameType(key)
  {
    GameTypeInfoOf(key).defaultTheme
  }

  // ---------------------------------------------------------------- THEME_MAP

  datatype ThemeInfo = ThemeInfo(name: string, style: string)

  /** THEME_MAP, in insertion order. */
  const Themes: seq<(string, ThemeInfo)> := [
    ("fantasy", ThemeInfo("奇幻", "史诗、魔法、冒险")),
    ("scifi", ThemeInfo("科幻", "未来、科技、太空")),
    ("modern", ThemeInfo("现代", "都市、现实、生活")),
    ("cyberpunk", ThemeInfo("赛博朋克", "高科技、低生活、反乌托邦")),
    ("post_apocalyptic", ThemeInfo("末世", "废土、生存、重建")),
    ("supernatural", ThemeInfo("超自然", "灵异、恐怖、神秘")),
    ("historical", ThemeInfo("历史", "古代、战争、文化")),
    ("steampunk", ThemeInfo("蒸汽朋克", "蒸汽、机械、维多利亚")),
    ("wuxia", ThemeInfo("武侠", "江湖、武术、侠义")),
    ("xianxia", ThemeInfo("仙侠", "修真、仙界、长生"))
  ]

  predicate IsTheme(key: string) {
    HasKey(Themes, key)
  }

  /**
   * The default theme of a game type is itself a THEME_MAP key only for
   * `rpg` (fantasy) and `horror` (supernatural); the other six defaults
   * (exploration, romance, combat, warfare, management, mystery) are not.
   */
  lemma DefaultThemeIsThemeIff(gameType: string)
    requires IsGameType(gameType)
    ensures IsTheme(DefaultTheme(gameType)) <==> gameType == "rpg" || gameType == "horror"
  {
    var i :| 0 <= i < |GameTypes| && GameTypes[i].0 == gameType;
    var theme := GameTypes[i].1.defaultTheme;
    DefaultThemeAt(i, theme);
    DefaultThemeKeys(i);
  }

  /** Which entries of GAME_TYPES have a default theme among the THEME_MAP keys. */
  lemma DefaultThemeKeys(i: int)
    requires 0 <= i < |GameTypes|
    ensures GameTypes[i].1.defaultTheme in ThemeKeys <==> i == 0 || i == 3
    ensures GameTypes[i].0 == "rpg" <==> i == 0
    ensures GameTypes[i].0 == "horror" <==> i == 3
    ensures GameTypes[i].1.defaultTheme != "horror"
  {
  }

  lemma DefaultThemeAt(i: int, theme: string)
    requires 0 <= i < |GameTypes| && GameTypes[i].1.defaultTheme == theme
    ensures IsGameType(GameTypes[i].0) && DefaultTheme(GameTypes[i].0) == theme
    ensures IsTheme(theme) <==> theme in ThemeKeys
  {
    GameTypesUnique();
    GetAt(GameTypes, i);
    IsThemeIff(theme);
  }

  /** The keys of THEME_MAP, in order. */
  const ThemeKeys: seq<string> :=
    ["fantasy", "scifi", "modern", "cyberpunk", "post_apocalyptic", "supernatural", "historical", "steampunk", "wuxia", "xianxia"]

  /** Membership in THEME_MAP is membership in its list of keys. */
  lemma IsThemeIff(key: string)
    ensures IsTheme(key) <==> key in ThemeKeys
  {
    assert forall j :: 0 <= j < |Themes| ==> Themes[j].0 == ThemeKeys[j];
    if key in ThemeKeys {
      var j :| 0 <= j < |ThemeKeys| && ThemeKeys[j] == key;
      assert Themes[j].0 == key;
    }
  }

  // ---------------------------------------------------------------- LENGTH_CONFIG

  datatype LengthInfo = LengthInfo(wordCount: nat, chapters: nat, npcs: nat)

  /** LENGTH_CONFIG, in insertion order. */
  const LengthConfig: seq<(string, LengthInfo)> := [
    ("short", LengthInfo(5000, 2, 3)),
    ("medium", LengthInfo(10000, 4, 5)),
    ("long", LengthInfo(20000, 7, 8))
  ]

  /** No key of GAME_TYPES occurs twice. */
  lemma GameTypesUnique()
    ensures UniqueKeys(GameTypes)
  {
  }

  // ---------------------------------------------------------------- name pools

  /** The generic title prefixes and suffixes of `generate_game_name`. */
  const TitlePrefixes: seq<string> := ["永恒", "命运", "星辰", "暗影", "传说", "幻境", "龙魂", "时光"]
  const TitleSuffixes: seq<string> := ["之旅", "契约", "纪元", "传说", "之歌", "之影", "觉醒", "战争"]

  /** The per-theme title prefixes of `generate_game_name`. */
  const ThemeTitlePrefixes: seq<(string, seq<string>)> := [
    ("scifi", ["星际", "银河", "量子", "虚空", "赛博", "机甲"]),
    ("fantasy", ["龙之", "魔法", "精灵", "元素", "神域", "英雄"]),
    ("horror", ["噩梦", "怨灵", "黑暗", "深渊", "诅咒", "寂静"]),
    ("modern", ["都市", "罪恶", "迷途", "真相", "暗流", "破晓"])
  ]

  /** The per-theme title suffixes of `generate_game_name`. */
  const ThemeTitleSuffixes: seq<(string, seq<string>)> := [
    ("scifi", ["战线", "漫游", "计划", "前线", "危机", "崛起"]),
    ("fantasy", ["誓约", "远征", "传说", "史诗", "王者", "荣耀"]),
    ("horror", ["之夜", "逃脱", "游戏", "侵袭", "梦魇", "恐惧"]),
    ("modern", ["行动", "档案", "追逐", "阴谋", "破局", "救赎"])
  ]

  datatype NamePool = NamePool(male: seq<string>, female: seq<string>)

  /** CHARACTER_NAMES. */
  const CharacterNames: seq<(string, NamePool)> := [
    ("fantasy", NamePool(["亚瑟", "凯尔", "雷恩", "艾伦", "德里克", "索恩", "加雷斯", "卢卡斯"],
                         ["艾莉亚", "塞拉菲娜", "伊莎贝拉", "莉莉安", "罗莎琳", "艾薇", "娜塔莉", "索菲亚"])),
    ("scifi", NamePool(["凯尔", "雷克斯", "诺瓦", "泽塔", "阿尔法", "欧米伽", "赛特", "泰坦"],
                       ["莱拉", "尼克斯", "奥拉", "维加", "艾拉", "露娜", "塞拉", "星尘"])),
    ("modern", NamePool(["杰克", "瑞恩", "亚历克斯", "迈克", "大卫", "克里斯", "汤姆", "丹"],
                        ["艾玛", "莎拉", "艾米丽", "杰西卡", "丽莎", "安娜", "凯特", "米娅"]))
  ]

  /** PLOT_TEMPLATES. */
  const PlotTemplates: seq<(string, seq<string>)> := [
    ("rpg", ["英雄之旅：平凡少年被卷入预言，踏上拯救世界的冒险",
             "复仇之路：主角家园被毁，踏上寻找真相和复仇的旅程",
             "王权争夺：各方势力争夺王位，主角选择阵营并改变命运",
             "神明觉醒：远古神明苏醒，主角成为唯一能对抗它的存在",
             "时空穿梭：世界面临崩坏，主角穿越不同时间线修复历史"]),
    ("adventure", ["神秘寻宝：根据古老地图寻找失落文明的宝藏",
                   "孤岛求生：飞机失事后在神秘岛屿求生并揭示岛屿秘密",
                   "侦探破案：调查一系列看似无关的案件背后的真相",
                   "考古探险：探索古代遗迹，解开文明消失之谜",
                   "深海探索：潜入深海，发现隐藏在海底的古代文明"]),
    ("horror", ["幽灵庄园：被困在充满怨灵的古老庄园中寻找出路",
                "病毒爆发：在丧尸横行的城市中寻找解药和幸存者",
                "心理恐怖：在封闭环境中逐渐分不清现实与幻觉",
                "邪教仪式：深入邪教巢穴，阻止召唤邪神的仪式",
                "诅咒村落：进入被诅咒的村落，揭开村民失踪真相"])
  ]

  // ---------------------------------------------------------------- section templates

  /** `chapter_names` of `generate_plot`. */
  const ChapterNames: seq<string> := ["初入未知", "力量觉醒", "真相浮现", "背水一战", "绝境求生", "最终决战", "新的开始"]

  /** `boss_types` of `_generate_boss_description`. */
  const BossTypes: seq<string> := ["堕落的守护者", "远古魔兽", "黑暗骑士", "邪恶法师", "机械巨兽", "幽灵领主", "变异生物", "背叛的盟友"]

  /** The fixed role and trait of each of the four NPCs of `generate_characters`, in list order. */
  const NpcRoles: seq<string> := ["盟友", "导师", "对手", "中立"]
  const NpcTraits: seq<string> := ["智慧与支持", "神秘与指引", "强大与复杂", "信息与交易"]

  /** The titles of the three levels `generate_level_design` can emit. */
  const LevelTitles: seq<string> := ["新手教程区域", "第一个危险区域", "隐藏遗迹"]
}
