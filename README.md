# Achievement engine of a save-file inspector, modelled in Dafny

The modelled program reads the decrypted XML save file of a 2D exploration game.
From it, the program reports how far the player is towards each Steam achievement. This
project models the program's core: what it reads from the save and the rules it applies.

- **The closed vocabularies.**
  - The 62 creatures that can appear in the glitch log have display names and serialized tokens.
  - Seven of the tokens are renamed to an underscore form, such as `SentryBot_Meta`.
  - TubePuff is also accepted under the alias `TubeWorm_Meta`.
  - 59 of the creatures form the list that the Hacker achievement requires. Jormite, TentacleGrass and RepairDrone are not on it.
  - The twelve item categories have upper-snake-case tokens and a `Default` of Weapon.
- **The save record.** The model keeps the fields the rules read:
  - the item records, with their category and "excluded from count" flag;
  - the speedrun checkpoint log, which doubles as a boss-kill log;
  - the glitch log;
  - the screen, death, brick and red-goo counters.
- **The helper queries.**
  - boss state;
  - per-category item counts, with fragments folded in groups of five;
  - the 100% item tally;
  - clamping;
  - the creatures still missing for Hacker.
- **The rules.** One rule per achievement:
  - 100% Health, Items, Map, Notes, Power, Tools and Weapons;
  - Brick Breaker and Bubble Breaker;
  - Hack and Hacker;
  - Low %, Mostly Invincible and Pacifist;
  - the eight boss kills, where Vision is reported as Hallucination.
- **The reports.** Two reports list the rules in order.

`src/savedata.rs:721-1046` repeats the rules of `src/achievements.rs` as methods of the save record.
- The shared queries (`boss_state`, `item_type_count`, `item_counts`, `hacker_requires`) are defined once, in `SaveData`.
- The rules are defined once, in `Achievements`.
- Both copies' reports are modelled: `ProgressReport` for `src/achievements.rs` and `SaveDataProgressReport` for `src/savedata.rs`. They differ in one line: the copy in `src/savedata.rs` has no Pacifist line.

Modules and files:
- `savedata.dfy`, module `SaveData`: the vocabularies, their token tables and decoders, the save record, and the helper queries.
- `achievements.dfy`, module `Achievements`: the rules and the two reports.

Everything is a pure function over values, as in the source. The save record is decoded once and only read afterwards.

Percentages are the one place where the source uses floating point (`f32`). The model keeps the integer (current, needed) pair each percentage is computed from.
- Low %'s test `percent >= 40.0` becomes `current * 100 >= 40 * needed`.
- With needed = 94, this holds exactly when current >= 38: 37 items give 39.36% and 38 give 40.43%. Neither is close enough to 40% for `f32` rounding to matter.

The creature decoder first narrows a text down to one candidate creature. It does so by the text's length, second character and last character, which together tell all 62 tokens apart. It then compares the text with that creature's token in full. So it accepts exactly the tokens and the alias, as a derived string-matching decoder does.

Points where the code's behaviour is easy to misread:
- **All Items target.** The seven constants give 13+28+9+4+4+16+20 = 94 items for All Items, and `ItemCounts` states 94.
- **Breaker clamp.** The breaker achievements clamp their counter to [0, 2000], not just from above, so a negative counter shows 0 (`BreakerCountersClamped`).
- **Order of the missing creatures.** `hacker_requires` collects them from a hash set, whose iteration order is unspecified. `HackerRequires` therefore states membership and the absence of duplicates, not an order.
- **Item category default.** `Default` for the item category returns Weapon, but the record's `type_` field carries no serde default attribute, so the decoder never applies it. A missing category is a decode error, and the model has no path that fills in the default. `DefaultItemType` states the value `Default` returns.
- **Hacker.** Both of the source's reports print Hacker as the length of the glitch log (see "## Findings"), and so do `ProgressReport` and `SaveDataProgressReport`. `CorrectedProgressReport` is the report with the corrected count.

## Model

| member | source | states |
|---|---|---|
| SaveData.CreatureFromToken | src/savedata.rs:67-156 | the derived deserializer with its seven renames and the `TubeWorm_Meta` alias: a decoded creature is the one whose serialized token is the text, or TubePuff for the alias |
| SaveData.CreatureName | src/savedata.rs:161-234 | the display-name table: one name per creature, as the bestiary lists it (TubePuff is "Green Sea Sponge") |
| SaveData.CreatureToken | src/savedata.rs:67-156 | the serialized-token table: the variant name, or the underscore name of the seven rename attributes |
| SaveData.CreatureTokenRoundTrip | src/savedata.rs:67-156 | every creature's serialized token decodes back to that creature |
| SaveData.CreatureTokenInjective | src/savedata.rs:67-156 | no two creatures share a serialized token |
| SaveData.CreatureDecodeFailsOnlyOffTable | src/savedata.rs:67-156 | decoding fails exactly for text that is neither a creature's token nor the alias |
| SaveData.AliasIsNotAToken | src/savedata.rs:110-112 | the alias `TubeWorm_Meta` is not the token of any creature |
| SaveData.TubePuffDecodesFromBothTokens | src/savedata.rs:110-112 | "TubePuff" and "TubeWorm_Meta" both decode to TubePuff, whose token stays "TubePuff" and whose name is "Green Sea Sponge" |
| SaveData.DecodesOnlyFromOwnToken | src/savedata.rs:67-156 | every creature other than TubePuff decodes from its own token and from no other text |
| SaveData.RenamedTokensAreTokens | src/savedata.rs:114-151 | the token of each of the seven renamed creatures is the underscore name its rename attribute gives |
| SaveData.RenamedCreaturesDecodeOnlyFromUnderscoreTokens | src/savedata.rs:114-151 | each renamed creature decodes from its underscore token and from no other text |
| SaveData.SentryBotMetaDecodesOnlyRenamed | src/savedata.rs:150-151 | "SentryBot_Meta" decodes to SentryBotMeta; the bare variant name "SentryBotMeta" is a decode failure |
| SaveData.MutantStrongDecodesOnlyRenamed | src/savedata.rs:117-118 | "Mutant_Strong" decodes to MutantStrong; "MutantStrong" is a decode failure |
| SaveData.AchievementListIsHackerSet | src/savedata.rs:237-317 | the Hacker list has 59 entries, none twice, and holds exactly the creatures `hacker()` accepts (all but Jormite, TentacleGrass and RepairDrone) |
| SaveData.RequiredCreatureAt | src/savedata.rs:237-307 | definition: the i-th creature of the Hacker list, in the order the source writes it |
| SaveData.AchievementList | src/savedata.rs:237-307 | definition: the 59 entries of the Hacker list, in order |
| SaveData.IsHackerCreature | src/savedata.rs:311-317 | definition: every creature except Jormite, TentacleGrass and RepairDrone is required for Hacker |
| SaveData.ItemTypeFromToken | src/savedata.rs:365-402 | a lookup over the twelve upper-snake-case tokens: a decoded category is the one whose token is the text, and decoding fails exactly when no category has that token |
| SaveData.ItemTypeToken | src/savedata.rs:365-402 | the token table: each category's variant name in upper snake case |
| SaveData.ItemTypeTokensAreOneToOne | src/savedata.rs:365-402 | every category's token decodes back to it, and no two categories share a token |
| SaveData.ItemTypeTokenExamples | src/savedata.rs:365-408 | "HEALTH_NODE" and "POWER_NODE_FRAGMENT" decode to their categories, the variant names "HealthNode" and "Weapon" do not decode, and the default category is Weapon |
| SaveData.DefaultItemType | src/savedata.rs:404-408 | definition: the item category `Default` gives is Weapon |
| SaveData.CheckpointCountPositiveIffLogged | src/savedata.rs:727-733 | the number of checkpoints named after a boss is positive exactly when some checkpoint carries that name |
| SaveData.BossStateOf | src/savedata.rs:723-739 | a boss is Dead exactly when the checkpoint log is present and names it; with no log every boss is Alive |
| SaveData.CountItems | src/savedata.rs:741-748 | the number of item records of a category that are not excluded from counting, never more than the records |
| SaveData.ItemTypeCount | src/achievements.rs:96-103 | definition: that count over the save's item records |
| SaveData.ItemTypeCountIsPositionCount | src/savedata.rs:741-748 | the count of a category is the number of positions holding an item of that category not excluded from counting |
| SaveData.CountItemsAppend | src/savedata.rs:741-748 | counting distributes over concatenation of item lists |
| SaveData.ItemTypeCountIgnoresOrder | src/savedata.rs:741-748 | item lists that are permutations of each other give every category the same count |
| SaveData.ExcludedItemNeverCounts | src/savedata.rs:741-748 | inserting an item excluded from counting anywhere changes no category's count |
| SaveData.CountItemsOfOneCategory | src/savedata.rs:741-748 | items all counting toward one category count fully there and nowhere else |
| SaveData.FoldFragments | src/savedata.rs:774-777 | fragments fold into the whole number of complete groups of five, never rounding a partial group up |
| SaveData.FragmentFoldingExamples | src/savedata.rs:774-777 | 4 fragments make 0 nodes, 5 and 9 make 1, 10 make 2 |
| SaveData.TalliedCategoriesFitItems | src/savedata.rs:750-788 | the ten tallied category counts together never exceed the number of item records |
| SaveData.ItemCounts | src/savedata.rs:750-788 | the 100% items tally needs 94 items, and its current value is between 0 and the number of item records |
| SaveData.Clamp | src/savedata.rs:909 | the result is the value nearest to x within [lo, hi]: x itself inside the range, lo below it, hi above it |
| SaveData.Missing | src/savedata.rs:1031-1035 | keeps exactly the needed creatures that are not glitched, and introduces no duplicates |
| SaveData.HackerRequires | src/savedata.rs:1027-1045 | absent exactly when the glitch log is absent; otherwise lists each required creature the log lacks, once, and nothing else |
| Achievements.AllHealth | src/achievements.rs:147-161 | 100% Health needs 13; past the counted health nodes, its count is the number of complete groups of five counted fragments |
| Achievements.AllItems | src/achievements.rs:164-173 | definition: the 100% Items line is the item tally `ItemCounts` (94 needed) |
| Achievements.AllMap | src/achievements.rs:176-185 | definition: screens visited against the screen total recorded in the save, the only rule whose target is not a constant |
| Achievements.AllNotes | src/achievements.rs:188-199 | 100% Notes needs 28 and counts the counted lore items, at most the number of item records |
| Achievements.AllPower | src/achievements.rs:202-216 | 100% Power needs 9; past the counted power nodes, its count is the number of complete groups of five counted fragments |
| Achievements.AllTools | src/achievements.rs:219-232 | 100% Tools needs 16 and counts tools and permanent upgrades together, at most the number of item records |
| Achievements.AllWeapons | src/achievements.rs:235-246 | 100% Weapons needs 20 and counts the counted weapons, at most the number of item records |
| Achievements.ItemTallyIsSumOfItemRules | src/achievements.rs:105-143 | the 100% Items tally is the sum of the Health, Notes, Power, Tools and Weapons rules plus range and size nodes, and its target is the sum of their targets plus 4 + 4 |
| Achievements.ItemRulesIgnoreOrder | src/achievements.rs:96-103 | permuting the save's items changes no item rule and not the Low % verdict |
| Achievements.ExcludedItemChangesNoItemRule | src/achievements.rs:96-103 | inserting an item excluded from counting changes no item rule and not the Low % verdict |
| Achievements.AddedItemsOfOneCategory | src/achievements.rs:96-103 | adding items of one counted category raises that category's count by their number and no other count |
| Achievements.FiveHealthFragmentsMakeOneNode | src/achievements.rs:147-161 | five more counted health fragments raise both 100% Health and the 100% Items tally by exactly one |
| Achievements.BrickBreaker | src/achievements.rs:262-271 | Brick Breaker needs 2000 and shows a value between 0 and 2000 |
| Achievements.BubbleBreaker | src/achievements.rs:274-283 | Bubble Breaker needs 2000 and shows a value between 0 and 2000 |
| Achievements.BreakerCountersClamped | src/achievements.rs:262-283 | a breaker shows its counter when within [0, 2000], 2000 above, 0 for a negative counter, and never less for a larger counter |
| Achievements.MostlyInvincible | src/achievements.rs:338-360 | definition: Failed once the save records more than one death, else OK |
| Achievements.MostlyInvincibleAllowsOneDeath | src/achievements.rs:338-360 | OK exactly when at most one death is recorded: one death is OK, a second fails, and more deaths never turn a failed verdict back to OK |
| Achievements.LowPercent | src/achievements.rs:321-336 | Low % fails exactly when the item tally reaches 38 of 94, the first count at or above 40% |
| Achievements.LowPercentThreshold | src/achievements.rs:321-336 | 37 items are OK, 38 fail, and a save with at least as many items never turns a failed Low % back to OK |
| Achievements.Hack | src/achievements.rs:285-301 | Hack needs 1 and shows 1 exactly when the glitch log is present and not empty, else 0 |
| Achievements.Hacker | src/achievements.rs:303-319 | as written: needs 59, shows 0 without a glitch log, and never shows fewer than the distinct required creatures the log names |
| Achievements.HackerCorrected | src/savedata.rs:311-317 | as intended, counting only creatures `hacker()` accepts, each once: needs 59, never exceeds it, and shows 0 without a glitch log |
| Achievements.HackerCorrectedMatchesRequires | src/achievements.rs:303-319 | with a glitch log, the corrected Hacker count plus the number of creatures still required is 59, the Hacker target |
| Achievements.HackerMatchesCorrectedOnCleanLog | src/achievements.rs:303-319 | on a log naming only required creatures, each once, the source's Hacker count equals the corrected one |
| Achievements.HackerCountsEveryEntry | src/achievements.rs:303-319 | logging one more creature raises the source's count by exactly one, even for a repeated or non-required creature; the corrected count rises only for a required creature not logged before |
| Achievements.HackerOvercount | src/achievements.rs:303-319 | a log with every required creature but one, plus Jormite, shows 59/59 in the source's count while one creature is still required; the corrected count shows 58/59 |
| Achievements.HackerOvercountWitness | src/achievements.rs:303-319 | the concrete case with Arachnoptopus missing |
| Achievements.Pacifist | src/achievements.rs:362-371 | Pacifist fails exactly when the checkpoint log is present and names Clone |
| Achievements.BossLabel | src/achievements.rs:249-259 | definition: Vision is shown as Hallucination, every other boss under its own name |
| Achievements.BossReport | src/achievements.rs:249-259 | a boss line with the boss's label, Dead exactly when the checkpoint log names the boss under its own name |
| Achievements.BossLabelsRenameOnlyVision | src/achievements.rs:249-259 | Vision is reported as Hallucination with the state logged under "Vision", every other boss under its own name, and the eight labels are distinct |
| Achievements.BossLines | src/achievements.rs:391-393 | one line per boss in the boss list's order, labelled by the boss label, Dead exactly when the checkpoint log names the boss |
| Achievements.AchievementLines | src/achievements.rs:376-389 | the fourteen achievement lines; the eleventh is Hacker with the source's count (the glitch log's length), the last is the Pacifist line with Clone's state and the Pacifist verdict |
| Achievements.ProgressReport | src/achievements.rs:373-394 | 22 lines: line 10 is Hacker with the source's count, and from line 14 on, the boss lines |
| Achievements.ProgressReportLayout | src/achievements.rs:373-394 | the report has 22 lines: line 10 is Hacker with the source's count, line 13 the Pacifist verdict, Failed exactly when Clone is dead, and line 14 + i reports the i-th boss |
| Achievements.CorrectedProgressReport | src/achievements.rs:373-394 | the report with the corrected Hacker count: the same 22 lines except line 10 |
| Achievements.CorrectedReportAgreesWithRequires | src/achievements.rs:396-414 | with a glitch log, the corrected report's Hacker count plus the number of creatures still required is 59 |
| Achievements.ReportsDifferOnlyInPacifist | src/savedata.rs:1005-1025 | the report of the copy in `src/savedata.rs` is the other report without its Pacifist line, and contains no Pacifist line |
| Achievements.SaveDataProgressReport | src/savedata.rs:1005-1025 | 21 lines, line 10 being Hacker with the source's count |
| Achievements.OnlyXedurDefeated | src/achievements.rs:77-94 | with a checkpoint log naming only Xedur (once or more, any frame count), Xedur is Dead, every other boss Alive, and Pacifist OK |

## Left out

- Decryption (AES with the fixed key and IV in `src/crypto.rs`), XML parsing and the struct-field tag mapping. The model starts from the decoded record and keeps only the token-to-variant tables.
- The save record's other fields and the other enums (difficulty, area, map and password records). No rule reads them.
- Command-line handling and printing: `src/main.rs` and `src/cli.rs`, the text formatting of each line, the "death"/"deaths" pluralisation, and the `Display` impls of `BossState` and `Creature`. The report lines are datatypes, not text.
- Percentages. They are `f32` in the source. The model keeps the (current, needed) pair; 100% Map's percentage for a zero screen total is not modelled.
- Integer widths. The counters are `i32` and the counts `usize`, but no rule does arithmetic that could leave those ranges on a real save. The model uses unbounded integers.
- HackerRequires: lists the missing creatures in the Hacker list's order. The source's order is the iteration order of a hash set, which is unspecified, so only membership and the absence of duplicates are stated.
- DefaultItemType: states the value `Default` returns. The decoder never applies it, since the record field carries no serde default.

## Findings

| source | as written | input that shows it | evidently intended | confidence | as-written member | corrected member |
|---|---|---|---|---|---|---|
| src/achievements.rs:303-319 | Hacker's current value is the length of the glitch log. It counts creatures the achievement does not require (Jormite, TentacleGrass, RepairDrone) and any repeated entry, and `Creature::hacker()` (src/savedata.rs:311-317), which tells required creatures apart, is never called | a glitch log with every required creature except Arachnoptopus, plus Jormite: the report shows Hacker 59/59 while the list of creatures still required names Arachnoptopus | count the distinct required creatures in the log, so that the count plus the creatures still required is always 59 | medium, not executed | Achievements.Hacker, Achievements.HackerOvercount, Achievements.HackerOvercountWitness, Achievements.HackerCountsEveryEntry | Achievements.HackerCorrected, Achievements.HackerCorrectedMatchesRequires, Achievements.CorrectedProgressReport |
