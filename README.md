# Game script generator — request normalisation and document sizing

A Dafny model of the deterministic core of `GameScriptGenerator`
(`scripts/game_script_generator.py`), a template-driven generator of game
design documents. The model covers:

- the fixed tables `GAME_TYPES`, `THEME_MAP`, `LENGTH_CONFIG` and the
  template pools, as ordered `(key, value)` sequences (a Python dict keeps
  insertion order, and the normalisers' loops depend on it) — `Config.dfy`;
- `str.lower()`, `str.strip()` and the substring test `needle in hay` —
  `Text.dfy`;
- the two normalisers and the length lookup of `__init__` — `Normalize.dfy`.
  Each normaliser is a specification function (`GameTypeOf`, `ThemeOf`)
  plus a method with the source's `for` loop and early return
  (`NormalizeGameType`, `NormalizeTheme`) proved equal to it;
- the generator object and its sections — `Generator.dfy`. The class
  `GameScriptGenerator` keeps the fields `__init__` assigns. The sections
  are modelled as structure rather than prose: chapter blocks with their
  bosses, NPC entries, levels, the world-setting header and the two titles.
  The chapter and NPC loops are methods proved equal to the functions
  `PlotChapters` and `CharactersOf`. Every `random.choice` is an index
  supplied by the caller (`Choices`).

Behaviour of the code that the model brings out:

- Six of the eight default themes (`exploration`, `romance`, `combat`,
  `warfare`, `management`, `mystery`) are not `THEME_MAP` keys. A theme
  that matches nothing therefore stays outside the table unless the game
  type is `rpg` or `horror` (`Normalize.ThemeIsThemeIff`). For such a
  generator, `generate_worldview` raises `KeyError` at line 231, and so
  would `_export_json` (line 663) and `save_script` (line 631). The model
  makes this error path explicit (`Result`/`KeyError`) instead of assuming
  the theme is valid. The command line cannot reach it, because argparse
  limits `--theme` to `THEME_MAP` keys. A batch descriptor or a direct
  constructor call can.
- No input normalises to the theme `horror` (`Normalize.ThemeNeverHorror`).
  So the `horror` title pools of `generate_game_name` and the horror
  paragraph of `generate_worldview` are never used. A horror/supernatural
  request takes its titles from the generic pools
  (`Generator.HorrorSupernaturalShort`).
- `npcs[:npc_count]` caps the NPC entries at 4. A `long` request shows 4
  entries while its metadata records 8 (`Generator.LongNpcCountExceedsEntries`).
- The level count tests the raw `length` string, while the sizes fall back
  to `medium`. So an unrecognised length gets medium's 4 chapters and 4 NPC
  entries but only 2 levels (`Generator.SectionCounts`).

Python's `%` with a positive divisor agrees with Dafny's Euclidean `%`. So
`BossType` needs no adjustment, and the boss index stays in bounds for every
integer.

## Model

| member | source | states |
|---|---|---|
| `Text.Lower` | scripts/game_script_generator.py:180 | the result contains no code point that lower-casing would change and is at least as long as the input; without U+0130 it has the input's length and each code point is the input's code point lower-cased |
| `Text.LowerOfLower` | scripts/game_script_generator.py:180 | lower-casing leaves an already lower-case string unchanged |
| `Text.Strip` | scripts/game_script_generator.py:180 | the result is the slice of the input left after removing whitespace-only runs at both ends: it has no whitespace at either end, and it is empty exactly when the input is all whitespace |
| `Text.Contains` | scripts/game_script_generator.py:186 | `needle in hay` holds exactly when `needle` occurs at some position of `hay` |
| `Config.Get` | scripts/game_script_generator.py:202 | `d[key]` yields a value exactly when `key` is a key, and that value is the one stored with `key`; a missing key is the `KeyError` case |
| `Config.GetOr` | scripts/game_script_generator.py:170 | `d.get(key, default)` is the default exactly for a missing key, else the value stored under `key` |
| `Config.GetAt` | scripts/game_script_generator.py:28-90 | in a table without repeated keys, looking up the i-th key yields the i-th value |
| `Config.DefaultThemeIsThemeIff` | scripts/game_script_generator.py:28-90 | a game type's `default_theme` is a THEME_MAP key exactly for `rpg` and `horror` |
| `Normalize.Canonical` | scripts/game_script_generator.py:180 | `s.lower().strip()` is lower-case and has no surrounding whitespace |
| `Normalize.KeywordScan` | scripts/game_script_generator.py:185-187 | the scan stops at the first GAME_TYPES entry (in table order) with a keyword contained in the input, and no entry before it has one |
| `Normalize.GameTypeOf` | scripts/game_script_generator.py:178-189 | the result is always a GAME_TYPES key: the canonical input if it is a key, else the earliest entry with a matching keyword, else `rpg` |
| `Normalize.NormalizeGameType` | scripts/game_script_generator.py:178-189 | the loop with early return computes exactly `GameTypeOf` |
| `Normalize.GameTypeOfKey` | scripts/game_script_generator.py:182-183 | every GAME_TYPES key normalises to itself |
| `Normalize.GameTypeIdempotent` | scripts/game_script_generator.py:178-189 | normalising twice gives the same key as normalising once |
| `Normalize.FirstMatchWins` | scripts/game_script_generator.py:185-187 | "action rpg" has keywords of both `rpg` and `action`, and the earlier table entry `rpg` wins |
| `Normalize.ThemeScan` | scripts/game_script_generator.py:198-200 | the scan stops at the first THEME_MAP key (in table order) contained in the input, and no earlier key is contained |
| `Normalize.ThemeOf` | scripts/game_script_generator.py:191-202 | the canonical input if it is a THEME_MAP key, else the first key contained in it, else the game type's `default_theme` |
| `Normalize.NormalizeTheme` | scripts/game_script_generator.py:191-202 | the loop with early return computes exactly `ThemeOf` |
| `Normalize.ThemeIsThemeIff` | scripts/game_script_generator.py:191-202 | the normalised theme is a THEME_MAP key if and only if the input matched a key exactly or as a substring, or the game type is `rpg` or `horror` |
| `Normalize.ThemeOfKey` | scripts/game_script_generator.py:195-196 | a THEME_MAP key normalises to itself for every game type |
| `Normalize.ThemeNeverHorror` | scripts/game_script_generator.py:191-202 | no input normalises to the theme `horror` |
| `Normalize.UnmatchedThemeLeavesTable` | scripts/game_script_generator.py:202 | theme "Dark" with game type `adventure` normalises to `exploration`, which is not a THEME_MAP key |
| `Normalize.ResolveLength` | scripts/game_script_generator.py:170-173 | short, medium and long give (5000, 2, 3), (10000, 4, 5) and (20000, 7, 8); any other string gives medium's triple |
| `Generator.PrefixPool` | scripts/game_script_generator.py:209-223 | for scifi, fantasy, horror and modern, that theme's own 6-entry prefix list; for any other theme, the 8 generic prefixes |
| `Generator.SuffixPool` | scripts/game_script_generator.py:216-224 | for scifi, fantasy, horror and modern, that theme's own 6-entry suffix list; for any other theme, the 8 generic suffixes |
| `Generator.TitlePoolsOfNormalisedTheme` | scripts/game_script_generator.py:209-224 | for a normalised theme, the themed pools apply exactly to scifi, fantasy and modern, and every other theme uses the generic pools |
| `Generator.NamesFor` | scripts/game_script_generator.py:273 | for fantasy, scifi and modern, that theme's own CHARACTER_NAMES entry; for any other theme, the `modern` pools; always 8 male and 8 female names |
| `Generator.PlotPool` | scripts/game_script_generator.py:274 | for rpg, adventure and horror, that game type's own PLOT_TEMPLATES list; for any other game type, `rpg`'s; always 5 templates |
| `Generator.IndexOf` | scripts/game_script_generator.py:284 | the position of the first occurrence of a character, or the length if it is absent |
| `Generator.Background` | scripts/game_script_generator.py:284 | the protagonist background is the text between the first and second full-width colon, or the whole template when it has no colon |
| `Generator.NpcCandidates` | scripts/game_script_generator.py:298-303 | four candidates with the fixed roles and traits; ally and neutral take female names, mentor and rival male names |
| `Generator.NpcEntries` | scripts/game_script_generator.py:305-311 | `enumerate(npcs[:npc_count])` gives `min(npc_count, 4)` entries, numbered from 1, in candidate order |
| `Generator.EnumerateNpcs` | scripts/game_script_generator.py:305-311 | the loop over `enumerate(npcs[:npc_count])` produces exactly `NpcEntries` |
| `Generator.CharactersOf` | scripts/game_script_generator.py:271-311 | the protagonist is a male name of the theme's pool; there are `min(npc_count, 4)` NPC entries numbered from 1 in the order ally, mentor, rival, neutral |
| `Generator.BossType` | scripts/game_script_generator.py:389-395 | the boss is always one of the eight boss types (in bounds for every chapter number), and chapter k ≤ 8 gets `boss_types[k-1]` |
| `Generator.BossCycle` | scripts/game_script_generator.py:395 | boss types repeat with period 8 |
| `Generator.PlotChapters` | scripts/game_script_generator.py:342-364 | exactly `min(chapter_count, 7)` chapter blocks, numbered 1..n in order, with `chapter_names[k]` and boss `boss_types[k]` |
| `Generator.LevelDesign` | scripts/game_script_generator.py:480-497 | 3 levels exactly when the raw length is `medium` or `long`, otherwise 2, numbered in order |
| `Generator.WorldviewOf` | scripts/game_script_generator.py:229-258 | fails with `KeyError(theme)` exactly when the theme is not a THEME_MAP key; otherwise carries that theme's name and style, and never the horror paragraph |
| `Generator.SectionCounts` | scripts/game_script_generator.py:170-173 | chapters / NPC entries / levels are 2/3/2 for short, 4/4/3 for medium, 7/4/3 for long and 4/4/2 for any other length |
| `Generator.LongNpcCountExceedsEntries` | scripts/game_script_generator.py:305 | a `long` request has an NPC count of 8 but only 4 NPC entries |
| `Generator.GameScriptGenerator.constructor` | scripts/game_script_generator.py:148-173 | the fields hold the normalised game type, the theme normalised against it, the raw length, platform and style, and the LENGTH_CONFIG sizes |
| `Generator.GameScriptGenerator.GenerateGameName` | scripts/game_script_generator.py:204-227 | the title is a prefix of the theme's prefix pool followed by a suffix of its suffix pool |
| `Generator.GameScriptGenerator.GenerateWorldview` | scripts/game_script_generator.py:229-269 | the world setting is `WorldviewOf(theme)`, including its `KeyError` case |
| `Generator.GameScriptGenerator.GenerateCharacters` | scripts/game_script_generator.py:271-325 | the NPC loop produces exactly `CharactersOf` for the generator's theme, game type and NPC count |
| `Generator.GameScriptGenerator.GeneratePlot` | scripts/game_script_generator.py:327-387 | the chapter loop produces exactly `PlotChapters(chapter_count)` |
| `Generator.GameScriptGenerator.GenerateLevelDesign` | scripts/game_script_generator.py:442-499 | the level list is `LevelDesign(length)` for the raw length |
| `Generator.GameScriptGenerator.GenerateFullScript` | scripts/game_script_generator.py:592-626 | fails with `KeyError(theme)` exactly when the theme is not a THEME_MAP key; otherwise the document has the two titles, the game type name, the overview plot, the platform and each section as specified |
| `Generator.GameScriptGenerator.ExportJson` | scripts/game_script_generator.py:656-676 | fails exactly when the theme is not a THEME_MAP key; otherwise the metadata equals the generator's fields (`chapters` = chapter count, `npcs` = NPC count), with the names looked up from the normalised keys |
| `Generator.HorrorSupernaturalShort` | scripts/game_script_generator.py:592-626 | horror / supernatural / short produces a document with 2 chapters, 3 NPC entries and a title from the generic pools |

## Left out

- `Text.Lower`: maps only ASCII A–Z, the KELVIN SIGN (to `k`) and U+0130 (to `i` plus a combining dot). Python's other non-ASCII case mappings turn non-ASCII letters into non-ASCII letters. Every table key and keyword is ASCII lower case or CJK text, so those mappings cannot create or remove a match, and the normalisers' results do not depend on them.
- The document is modelled by its structure (`Script`), not its Markdown text. The fixed prose of every section is left out: `generate_dialogue_sample`, `generate_system_design`, most of `generate_appendix`, the side quests and endings of `generate_plot`, and the relationship diagram. It is constant text joined by concatenation.
- `random.choice` is not modelled as randomness. Each call is an index the caller supplies (`Choices`, or the prefix/suffix arguments).
- `datetime.now()` (lines 167 and 585) is a clock. The constructor takes the timestamp as a parameter, and the appendix's generation time is not modelled.
- `save_script` (lines 628-654), `output_dir` and `mkdir` (lines 166 and 176) are filesystem I/O. This includes `save_script`'s own `THEME_MAP` lookup at line 631. For an unknown theme, `generate_full_script` has already failed before that lookup.
- `main`, argparse, batch-file reading, `print` and the `sys.stdout` rewrap (lines 22 and 683-783) are command-line and I/O plumbing.
- The `description` field of GAME_TYPES is kept in the table but never read by the generator.
