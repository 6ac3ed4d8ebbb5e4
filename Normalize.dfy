/**
 * Request normalisation of `GameScriptGenerator.__init__`: the free-form
 * game type and theme become table keys by exact match, then first
 * keyword/substring match in table order, then a default; the length tier
 * selects a LENGTH_CONFIG entry with `medium` as fallback.
 */
module Normalize {
  import opened Text
  import opened Config

  /** `raw.lower().strip()`, the first step of both normalisers. */
  function Canonical(raw: string): (s: string)
    ensures IsLower(s) && IsStripped(s)
  {
    Strip(Lower(raw))
  }

  /** A string that is already lower-case and stripped is its own canonical form. */
  lemma CanonicalOfCanonical(s: string)
    requires IsLower(s) && IsStripped(s)
    ensures Canonical(s) == s
  {
    LowerOfLower(s);
    StripOfStripped(s);
  }

  // ---------------------------------------------------------------- game type

  /** `any(kw in s for kw in info['keywords'])`. */
  predicate KeywordHit(info: GameTypeInfo, s: string) {
    exists k :: 0 <= k < |info.keywords| && Contains(s, info.keywords[k])
  }

  /** Entry `i` is the earliest GAME_TYPES entry with a keyword occurring in `s`. */
  predicate IsFirstKeywordMatch(s: string, i: int) {
    && 0 <= i < |GameTypes|
    && KeywordHit(GameTypes[i].1, s)
    && forall j :: 0 <= j < i ==> !KeywordHit(GameTypes[j].1, s)
  }

  /** Index of the first entry at or after `from` with a keyword in `s`; `|GameTypes|` if none. */
  function KeywordScan(s: string, from: nat): (i: nat)
    requires from <= |GameTypes|
    ensures from <= i <= |GameTypes|
    ensures i < |GameTypes| ==> KeywordHit(GameTypes[i].1, s)
    ensures forall j :: from <= j < i ==> !KeywordHit(GameTypes[j].1, s)
    decreases |GameTypes| - from
  {
    if from == |GameTypes| || KeywordHit(GameTypes[from].1, s) then from
    else KeywordScan(s, from + 1)
  }

  /** The key `_normalize_game_type` returns for `raw`. */
  function GameTypeOf(raw: string): (r: string)
    ensures IsGameType(r)
    ensures IsGameType(Canonical(raw)) ==> r == Canonical(raw)
    ensures !IsGameType(Canonical(raw)) ==>
              forall i :: IsFirstKeywordMatch(Canonical(raw), i) ==> r == GameTypes[i].0
    ensures !IsGameType(Canonical(raw)) &&
            (forall i :: 0 <= i < |GameTypes| ==> !KeywordHit(GameTypes[i].1, Canonical(raw))) ==>
              r == "rpg"
  {
    var s := Canonical(raw);
    if IsGameType(s) then s
    else
      var i := KeywordScan(s, 0);
      if i < |GameTypes| then GameTypes[i].0
      else assert GameTypes[0].0 == "rpg"; "rpg"
  }

  /** `_normalize_game_type`: exact key, else first keyword match in table order, else `rpg`. */
  method NormalizeGameType(raw: string) returns (r: string)
    ensures r == GameTypeOf(raw)
  {
    var s := Canonical(raw);
    if IsGameType(s) {
      return s;
    }
    var i := 0;
    while i < |GameTypes|
      invariant 0 <= i <= |GameTypes|
      invariant forall j :: 0 <= j < i ==> !KeywordHit(GameTypes[j].1, s)
    {
      var (key, info) := GameTypes[i];
      if KeywordHit(info, s) {
        assert IsFirstKeywordMatch(s, i);
        return key;
      }
      i := i + 1;
    }
    return "rpg";
  }

  /** Every GAME_TYPES key is lower-case and stripped. */
  lemma GameTypeKeysCanonical(i: int)
    requires 0 <= i < |GameTypes|
    ensures IsLower(GameTypes[i].0) && IsStripped(GameTypes[i].0)
  {
    var key := GameTypes[i].0;
    assert key in ["rpg", "adventure", "visual_novel", "horror", "action", "strategy", "simulation", "puzzle"];
  }

  /** A GAME_TYPES key normalises to itself. */
  lemma GameTypeOfKey(key: string)
    requires IsGameType(key)
    ensures GameTypeOf(key) == key
  {
    var i :| 0 <= i < |GameTypes| && GameTypes[i].0 == key;
    GameTypeKeysCanonical(i);
    CanonicalOfCanonical(key);
  }

  /** Normalising the game type twice gives the same key as normalising it once. */
  lemma GameTypeIdempotent(raw: string)
    ensures GameTypeOf(GameTypeOf(raw)) == GameTypeOf(raw)
  {
    GameTypeOfKey(GameTypeOf(raw));
  }

  /** "action rpg" is already canonical and is not a GAME_TYPES key. */
  lemma ActionRpgNotKey(s: string)
    requires s == "action rpg"
    ensures Canonical(s) == s
    ensures !IsGameType(s)
  {
    assert IsLower(s) && IsStripped(s);
    CanonicalOfCanonical(s);
    assert forall i :: 0 <= i < |GameTypes| ==> GameTypes[i].0 != s;
  }

  /** "action rpg" contains the first keyword of `rpg` (entry 0) and of `action` (entry 4). */
  lemma ActionRpgHits(s: string)
    requires s == "action rpg"
    ensures IsFirstKeywordMatch(s, 0)
    ensures KeywordHit(GameTypes[4].1, s)
  {
    assert Contains(s, "rpg") by {
      assert OccursAt(s, "rpg", 7);
    }
    assert GameTypes[0].1.keywords[0] == "rpg";
    assert Contains(s, "action") by {
      assert OccursAt(s, "action", 0);
    }
    assert GameTypes[4].1.keywords[0] == "action";
  }

  /** Keyword matching is in table order: "action rpg" hits `rpg` (entry 0) before `action` (entry 4). */
  lemma FirstMatchWins(raw: string)
    requires raw == "action rpg"
    ensures KeywordHit(GameTypes[4].1, Canonical(raw))
    ensures GameTypeOf(raw) == "rpg"
  {
    ActionRpgNotKey(raw);
    ActionRpgHits(raw);
  }

  // ---------------------------------------------------------------- theme

  /** Entry `i` is the earliest THEME_MAP key occurring in `s`. */
  predicate IsFirstThemeMatch(s: string, i: int) {
    && 0 <= i < |Themes|
    && Contains(s, Themes[i].0)
    && forall j :: 0 <= j < i ==> !Contains(s, Themes[j].0)
  }

  /** Index of the first THEME_MAP key at or after `from` that occurs in `s`; `|Themes|` if none. */
  function ThemeScan(s: string, from: nat): (i: nat)
    requires from <= |Themes|
    ensures from <= i <= |Themes|
    ensures i < |Themes| ==> Contains(s, Themes[i].0)
    ensures forall j :: from <= j < i ==> !Contains(s, Themes[j].0)
    decreases |Themes| - from
  {
    if from == |Themes| || Contains(s, Themes[from].0) then from
    else ThemeScan(s, from + 1)
  }

  /** The theme `_normalize_theme` returns for `raw` once the game type is `gameType`. */
  function ThemeOf(raw: string, gameType: string): (r: string)
    requires IsGameType(gameType)
    ensures IsTheme(Canonical(raw)) ==> r == Canonical(raw)
    ensures !IsTheme(Canonical(raw)) ==>
              forall i :: IsFirstThemeMatch(Canonical(raw), i) ==> r == Themes[i].0
    ensures !IsTheme(Canonical(raw)) &&
            (forall i :: 0 <= i < |Themes| ==> !Contains(Canonical(raw), Themes[i].0)) ==>
              r == DefaultTheme(gameType)
  {
    var s := Canonical(raw);
    if IsTheme(s) then s
    else
      var i := ThemeScan(s, 0);
      if i < |Themes| then Themes[i].0 else DefaultTheme(gameType)
  }

  /**
   * `_normalize_theme`: exact key, else first THEME_MAP key contained in the
   * input, else the default theme of the (already normalised) game type,
   * which `__init__` passes as `self.game_type`.
   */
  method NormalizeTheme(raw: string, gameType: string) returns (r: string)
    requires IsGameType(gameType)
    ensures r == ThemeOf(raw, gameType)
  {
    var s := Canonical(raw);
    if IsTheme(s) {
      return s;
    }
    var i := 0;
    while i < |Themes|
      invariant 0 <= i <= |Themes|
      invariant forall j :: 0 <= j < i ==> !Contains(s, Themes[j].0)
    {
      var key := Themes[i].0;
      if Contains(s, key) {
        assert IsFirstThemeMatch(s, i);
        return key;
      }
      i := i + 1;
    }
    return DefaultTheme(gameType);
  }

  /**
   * The normalised theme is a THEME_MAP key exactly when the input matched
   * one (exactly or as a substring) or the game type is `rpg` or `horror`:
   * for the six other game types the fallback is not a THEME_MAP key.
   */
  lemma ThemeIsThemeIff(raw: string, gameType: string)
    requires IsGameType(gameType)
    ensures IsTheme(ThemeOf(raw, gameType)) <==>
              || IsTheme(Canonical(raw))
              || (exists i :: 0 <= i < |Themes| && Contains(Canonical(raw), Themes[i].0))
              || gameType == "rpg" || gameType == "horror"
  {
    var s := Canonical(raw);
    DefaultThemeIsThemeIff(gameType);
    if !IsTheme(s) {
      var i := ThemeScan(s, 0);
      if i < |Themes| {
        assert IsFirstThemeMatch(s, i);
        assert Themes[i].0 == ThemeOf(raw, gameType);
      }
    }
  }

  /** Every THEME_MAP key is lower-case, stripped, at least five characters long, and none of them is `horror`. */
  lemma ThemeKeysCanonical(i: int)
    requires 0 <= i < |Themes|
    ensures IsLower(Themes[i].0) && IsStripped(Themes[i].0)
    ensures |Themes[i].0| >= 5
    ensures Themes[i].0 != "horror"
  {
    var key := Themes[i].0;
    assert key == ThemeKeys[i];
  }

  /** A THEME_MAP key normalises to itself whatever the game type. */
  lemma ThemeOfKey(key: string, gameType: string)
    requires IsTheme(key) && IsGameType(gameType)
    ensures ThemeOf(key, gameType) == key
  {
    var i :| 0 <= i < |Themes| && Themes[i].0 == key;
    ThemeKeysCanonical(i);
    CanonicalOfCanonical(key);
  }

  /** No input ever normalises to the theme `horror`, which is not a THEME_MAP key. */
  lemma ThemeNeverHorror(raw: string, gameType: string)
    requires IsGameType(gameType)
    ensures ThemeOf(raw, gameType) != "horror"
  {
    var s := Canonical(raw);
    if IsTheme(s) {
      var i :| 0 <= i < |Themes| && Themes[i].0 == s;
      ThemeKeysCanonical(i);
    } else {
      var i := ThemeScan(s, 0);
      if i < |Themes| {
        assert IsFirstThemeMatch(s, i);
        ThemeKeysCanonical(i);
      } else {
        var j :| 0 <= j < |GameTypes| && GameTypes[j].0 == gameType;
        DefaultThemeAt(j, GameTypes[j].1.defaultTheme);
        DefaultThemeKeys(j);
      }
    }
  }

  /** An unmatched theme with game type `adventure` falls back to `exploration`, not a THEME_MAP key. */
  lemma UnmatchedThemeLeavesTable(raw: string, gameType: string)
    requires raw == "Dark" && gameType == "adventure"
    ensures IsGameType(gameType)
    ensures ThemeOf(raw, gameType) == "exploration"
    ensures !IsTheme(ThemeOf(raw, gameType))
  {
    var s := "dark";
    assert Canonical(raw) == s by {
      assert Lower(raw) == s by { assert Lower("Dark") == s; }
      assert IsStripped(s);
      StripOfStripped(s);
    }
    assert forall i :: 0 <= i < |Themes| ==> |Themes[i].0| > |s| by {
      forall i | 0 <= i < |Themes| {
        ThemeKeysCanonical(i);
      }
    }
    assert !IsTheme(s);
    assert forall i :: 0 <= i < |Themes| ==> !Contains(s, Themes[i].0);
    DefaultThemeAt(1, "exploration");
    DefaultThemeKeys(1);
  }

  /** Membership in LENGTH_CONFIG. */
  lemma LengthKeys(length: string)
    ensures HasKey(LengthConfig, length) <==> length in ["short", "medium", "long"]
  {
    if length == "short" {
      assert LengthConfig[0].0 == length;
    } else if length == "medium" {
      assert LengthConfig[1].0 == length;
    } else if length == "long" {
      assert LengthConfig[2].0 == length;
    }
  }

  // ---------------------------------------------------------------- length

  /** `LENGTH_CONFIG.get(length, LENGTH_CONFIG['medium'])`: note `length` is not lower-cased. */
  function ResolveLength(length: string): (c: LengthInfo)
    ensures length == "short" ==> c == LengthInfo(5000, 2, 3)
    ensures length == "medium" ==> c == LengthInfo(10000, 4, 5)
    ensures length == "long" ==> c == LengthInfo(20000, 7, 8)
    ensures length !in ["short", "medium", "long"] ==> c == LengthInfo(10000, 4, 5)
  {
    LengthKeys(length);
    LengthKeys("medium");
    GetOr(LengthConfig, length, Get(LengthConfig, "medium").value)
  }
}
