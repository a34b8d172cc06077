/** Model of the achievement report of src/achievements.rs: one rule per
 *  achievement, each reading the decoded save record and producing what the
 *  report line shows (a current/needed pair, an OK/Failed verdict, or a boss
 *  state), and the report that lists them in order.
 *
 *  src/savedata.rs carries a second copy of the same rules as methods of the
 *  save record; SaveDataProgressReport models that copy's report. Percentages
 *  are printed as 32-bit floats in the source; the model keeps the integer
 *  pair they are computed from. */
module Achievements {
  import opened SaveData

  datatype Status = OK | Failed

  /** One line of the achievement report, without its text formatting. */
  datatype Line =
    | CountLine(title: string, progress: Progress)
    | StatusLine(title: string, progress: Progress, status: Status)
    | PacifistLine(clone: BossState, status: Status)
    | BossLine(heading: string, state: BossState)

  /* ---------------------------------------------------------------------- */
  /* Item achievements                                                      */
  /* ---------------------------------------------------------------------- */

  /** 100% Health: health nodes, plus health fragments in groups of five.
   *  Past the nodes, the count is the number of complete groups of five
   *  fragments, against 13. */
  function AllHealth(save: THSaveData): (p: Progress)
    ensures p.needed == 13
    ensures var extra := p.current - ItemTypeCount(save, HealthNode);
      5 * extra <= ItemTypeCount(save, HealthNodeFragment) < 5 * (extra + 1)
  {
    Progress(
      ItemTypeCount(save, HealthNode) + FoldFragments(ItemTypeCount(save, HealthNodeFragment)),
      AchievementAllHealth)
  }

  /** 100% Items: the whole item tally. */
  function AllItems(save: THSaveData): Progress
  {
    ItemCounts(save)
  }

  /** 100% Map: screens visited out of the screen total the save records;
   *  unlike the other rules, the target comes from the save, not a constant. */
  function AllMap(save: THSaveData): Progress
  {
    Progress(save.screenCount, save.totalScreenCount)
  }

  /** 100% Notes: counted lore items, against 28. */
  function AllNotes(save: THSaveData): (p: Progress)
    ensures p.needed == 28
    ensures p.current == ItemTypeCount(save, Lore) <= |save.items|
  {
    Progress(ItemTypeCount(save, Lore), AchievementAllNotes)
  }

  /** 100% Power: power nodes, plus power fragments in groups of five.
   *  Past the nodes, the count is the number of complete groups of five
   *  fragments, against 9. */
  function AllPower(save: THSaveData): (p: Progress)
    ensures p.needed == 9
    ensures var extra := p.current - ItemTypeCount(save, PowerNode);
      5 * extra <= ItemTypeCount(save, PowerNodeFragment) < 5 * (extra + 1)
  {
    Progress(
      ItemTypeCount(save, PowerNode) + FoldFragments(ItemTypeCount(save, PowerNodeFragment)),
      AchievementAllPower)
  }

  /** 100% Tools: tools together with permanent upgrades, against 16; the
   *  two categories together never exceed the item records. */
  function AllTools(save: THSaveData): (p: Progress)
    ensures p.needed == 16
    ensures p.current == ItemTypeCount(save, Tool) + ItemTypeCount(save, PermanentUpgrade) <= |save.items|
  {
    TalliedCategoriesFitItems(save.items);
    Progress(ItemTypeCount(save, Tool) + ItemTypeCount(save, PermanentUpgrade), AchievementAllTools)
  }

  /** 100% Weapons: counted weapons, against 20. */
  function AllWeapons(save: THSaveData): (p: Progress)
    ensures p.needed == 20
    ensures p.current == ItemTypeCount(save, Weapon) <= |save.items|
  {
    Progress(ItemTypeCount(save, Weapon), AchievementAllWeapons)
  }

  /** The 100% Items tally is exactly the sum of the five per-category item
   *  rules plus the range and size nodes, against the sum of their targets
   *  plus four range and four size nodes. */
  lemma ItemTallyIsSumOfItemRules(save: THSaveData)
    ensures AllItems(save).current
         == AllHealth(save).current + AllNotes(save).current + AllPower(save).current
          + AllTools(save).current + AllWeapons(save).current
          + ItemTypeCount(save, RangeNode) + ItemTypeCount(save, SizeNode)
    ensures AllItems(save).needed
         == AllHealth(save).needed + AllNotes(save).needed + AllPower(save).needed
          + AllTools(save).needed + AllWeapons(save).needed
          + AchievementAllRange + AchievementAllSize
  {
  }

  /** Two saves on which every item rule and the Low % verdict agree. */
  predicate SameItemRules(save1: THSaveData, save2: THSaveData)
  {
    AllHealth(save1) == AllHealth(save2) && AllItems(save1) == AllItems(save2) &&
    AllNotes(save1) == AllNotes(save2) && AllPower(save1) == AllPower(save2) &&
    AllTools(save1) == AllTools(save2) && AllWeapons(save1) == AllWeapons(save2) &&
    LowPercent(save1) == LowPercent(save2)
  }

  /** The order in which the save lists its items changes no item rule and
   *  not the Low % verdict. */
  lemma ItemRulesIgnoreOrder(save1: THSaveData, save2: THSaveData)
    requires multiset(save1.items) == multiset(save2.items)
    ensures SameItemRules(save1, save2)
  {
    forall t
      ensures ItemTypeCount(save1, t) == ItemTypeCount(save2, t)
    {
      ItemTypeCountIgnoresOrder(save1.items, save2.items, t);
    }
  }

  /** An item excluded from counting changes no item rule and not the Low %
   *  verdict, wherever it is inserted among the items. */
  lemma ExcludedItemChangesNoItemRule(save: THSaveData, k: nat, x: THItemRecord)
    requires k <= |save.items|
    requires x.excludedFromCount
    ensures var more := save.(items := save.items[..k] + [x] + save.items[k..]);
      SameItemRules(more, save)
  {
    forall t
      ensures CountItems(save.items[..k] + [x] + save.items[k..], t) == CountItems(save.items, t)
    {
      ExcludedItemNeverCounts(save.items, k, x, t);
    }
  }

  /** Adding items that all count toward one category raises that
   *  category's count by their number and leaves every other count alone. */
  lemma AddedItemsOfOneCategory(save: THSaveData, added: seq<THItemRecord>, t: THItemType)
    requires forall i | 0 <= i < |added| :: CountsToward(added[i], t)
    ensures forall u :: ItemTypeCount(save.(items := save.items + added), u)
                     == ItemTypeCount(save, u) + (if u == t then |added| else 0)
  {
    forall u
      ensures CountItems(save.items + added, u) == CountItems(save.items, u) + (if u == t then |added| else 0)
    {
      CountItemsAppend(save.items, added, u);
      CountItemsOfOneCategory(added, t, u);
    }
  }

  /** Five more counted health fragments make exactly one more health node,
   *  both for 100% Health and for the 100% Items tally. */
  lemma FiveHealthFragmentsMakeOneNode(save: THSaveData, fragments: seq<THItemRecord>)
    requires |fragments| == FragmentsPerNode
    requires forall i | 0 <= i < |fragments| :: CountsToward(fragments[i], HealthNodeFragment)
    ensures var more := save.(items := save.items + fragments);
      AllHealth(more).current == AllHealth(save).current + 1 &&
      AllItems(more).current == AllItems(save).current + 1
  {
    var more := save.(items := save.items + fragments);
    AddedItemsOfOneCategory(save, fragments, HealthNodeFragment);
    var n := ItemTypeCount(save, HealthNodeFragment);
    assert ItemTypeCount(more, HealthNodeFragment) == n + 5;
    assert FoldFragments(n + 5) == FoldFragments(n) + 1;
    assert ItemTypeCount(more, HealthNode) == ItemTypeCount(save, HealthNode);
    assert ItemTypeCount(more, PowerNodeFragment) == ItemTypeCount(save, PowerNodeFragment);
  }

  /* ---------------------------------------------------------------------- */
  /* Counter achievements                                                   */
  /* ---------------------------------------------------------------------- */

  /** Brick Breaker: bricks destroyed, clamped to [0, 2000]. */
  function BrickBreaker(save: THSaveData): (p: Progress)
    ensures p.needed == AchievementBrickBreaker
    ensures 0 <= p.current <= p.needed
  {
    Progress(Clamp(save.bricksDestroyed, 0, AchievementBrickBreaker), AchievementBrickBreaker)
  }

  /** Bubble Breaker: red goo destroyed, clamped to [0, 2000]. */
  function BubbleBreaker(save: THSaveData): (p: Progress)
    ensures p.needed == AchievementBubbleBreaker
    ensures 0 <= p.current <= p.needed
  {
    Progress(Clamp(save.redGooDestroyed, 0, AchievementBubbleBreaker), AchievementBubbleBreaker)
  }

  /** The breaker counters show the raw counter while it is within the
   *  target, the target once it is exceeded, and zero for a negative
   *  counter; a larger counter never shows less. */
  lemma BreakerCountersClamped(save: THSaveData, more: THSaveData)
    requires more.bricksDestroyed >= save.bricksDestroyed
    requires more.redGooDestroyed >= save.redGooDestroyed
    ensures 0 <= save.bricksDestroyed <= 2000 ==> BrickBreaker(save).current == save.bricksDestroyed
    ensures save.bricksDestroyed > 2000 ==> BrickBreaker(save).current == 2000
    ensures save.bricksDestroyed < 0 ==> BrickBreaker(save).current == 0
    ensures 0 <= save.redGooDestroyed <= 2000 ==> BubbleBreaker(save).current == save.redGooDestroyed
    ensures save.redGooDestroyed > 2000 ==> BubbleBreaker(save).current == 2000
    ensures save.redGooDestroyed < 0 ==> BubbleBreaker(save).current == 0
    ensures BrickBreaker(save).current <= BrickBreaker(more).current
    ensures BubbleBreaker(save).current <= BubbleBreaker(more).current
  {
  }

  /** Mostly Invincible: failed once the save records more than one death,
   *  so it allows at most one. */
  function MostlyInvincible(save: THSaveData): Status
  {
    if save.numDeaths > 1 then Failed else OK
  }

  /** Mostly Invincible allows at most one death: one death is still OK, a
   *  second one fails, and a save with more deaths never turns a failed
   *  verdict back to OK. */
  lemma MostlyInvincibleAllowsOneDeath(save: THSaveData, more: THSaveData)
    requires save.numDeaths <= more.numDeaths
    ensures MostlyInvincible(save) == OK <==> save.numDeaths <= 1
    ensures save.numDeaths == 1 ==> MostlyInvincible(save) == OK
    ensures save.numDeaths == 2 ==> MostlyInvincible(save) == Failed
    ensures MostlyInvincible(save) == Failed ==> MostlyInvincible(more) == Failed
  {
  }

  /* ---------------------------------------------------------------------- */
  /* Low %                                                                  */
  /* ---------------------------------------------------------------------- */

  /** Low %: failed once the item tally reaches 40% of the items needed. */
  function LowPercent(save: THSaveData): (s: Status)
    ensures s == Failed <==> ItemCounts(save).current >= 38
  {
    var p := ItemCounts(save);
    if p.current * 100 >= 40 * p.needed then Failed else OK
  }

  /** The 40% line falls between 37 items (39.36%) and 38 items (40.43%),
   *  and collecting more never turns a failed Low % back to OK. */
  lemma LowPercentThreshold(save: THSaveData, more: THSaveData)
    requires ItemCounts(save).current <= ItemCounts(more).current
    ensures ItemCounts(save).current == 37 ==> LowPercent(save) == OK
    ensures ItemCounts(save).current == 38 ==> LowPercent(save) == Failed
    ensures LowPercent(save) == Failed ==> LowPercent(more) == Failed
  {
  }

  /* ---------------------------------------------------------------------- */
  /* Hack and Hacker                                                        */
  /* ---------------------------------------------------------------------- */

  /** Hack: one creature glitched is enough. */
  function Hack(save: THSaveData): (p: Progress)
    ensures p.needed == 1
    ensures p.current == 1 <==> save.creaturesGlitched.Some? && save.creaturesGlitched.value != []
    ensures p.current == 0 || p.current == 1
  {
    var current := match save.creaturesGlitched
      case Some(glitched) => Clamp(|glitched|, 0, 1)
      case None => 0;
    Progress(current, 1)
  }

  /** A sequence has at most as many distinct elements as entries. */
  lemma {:induction false} DistinctAtMostLength(glitched: seq<Creature>)
    ensures |set c | c in glitched| <= |glitched|
  {
    if glitched != [] {
      var last := |glitched| - 1;
      DistinctAtMostLength(glitched[..last]);
      assert (set c | c in glitched) == (set c | c in glitched[..last]) + {glitched[last]};
    }
  }

  /** A subset is no larger than the set that holds it. */
  lemma SubsetAtMostSize(part: set<Creature>, whole: set<Creature>)
    requires part <= whole
    ensures |part| <= |whole|
  {
    assert whole == part + (whole - part);
  }

  /** The distinct required creatures of a glitch log number at most the
   *  log's entries and at most the 59 creatures of the Hacker list. */
  lemma RequiredGlitchedBounds(glitched: seq<Creature>)
    ensures |set c | c in glitched && IsHackerCreature(c)| <= |glitched|
    ensures |set c | c in glitched && IsHackerCreature(c)| <= 59
  {
    var done := set c | c in glitched && IsHackerCreature(c);
    DistinctAtMostLength(glitched);
    SubsetAtMostSize(done, set c | c in glitched);
    AchievementListIsHackerSet();
    DistinctElements(AchievementList());
    SubsetAtMostSize(done, set c | c in AchievementList());
  }

  /** Hacker as the source computes it: the length of the glitch log against
   *  the length of the Hacker list. It counts every entry, so it never shows
   *  fewer than the distinct required creatures the log names. */
  function Hacker(save: THSaveData): (p: Progress)
    ensures p.needed == 59
    ensures save.creaturesGlitched.None? ==> p.current == 0
    ensures p.current >= HackerCorrected(save).current
  {
    AchievementListIsHackerSet();
    match save.creaturesGlitched
    case Some(glitched) =>
      RequiredGlitchedBounds(glitched);
      Progress(|glitched|, |AchievementList()|)
    case None => Progress(0, |AchievementList()|)
  }

  /** Hacker as intended: the number of distinct required creatures in the
   *  glitch log against the length of the Hacker list, which it never
   *  exceeds. */
  function HackerCorrected(save: THSaveData): (p: Progress)
    ensures p.needed == 59
    ensures p.current <= p.needed
    ensures save.creaturesGlitched.None? ==> p.current == 0
  {
    AchievementListIsHackerSet();
    match save.creaturesGlitched
    case Some(glitched) =>
      RequiredGlitchedBounds(glitched);
      Progress(|set c | c in glitched && IsHackerCreature(c)|, |AchievementList()|)
    case None => Progress(0, |AchievementList()|)
  }

  /** The required creatures split into those glitched and those still
   *  missing: the corrected Hacker count plus the creatures still required
   *  is always the Hacker target, and the count never exceeds it. */
  lemma HackerCorrectedMatchesRequires(save: THSaveData)
    requires save.creaturesGlitched.Some?
    ensures HackerRequires(save).Some?
    ensures HackerCorrected(save).current + |HackerRequires(save).value| == HackerCorrected(save).needed
    ensures HackerCorrected(save).current <= HackerCorrected(save).needed == 59
  {
    var glitched := save.creaturesGlitched.value;
    var required := HackerRequires(save).value;
    AchievementListIsHackerSet();
    var all := set c | c in AchievementList();
    var done := set c | c in glitched && IsHackerCreature(c);
    var missing := set c | c in required;
    DistinctElements(AchievementList());
    DistinctElements(required);
    assert done <= all;
    assert missing == all - done;
  }

  /** On a glitch log that names only required creatures, each once, the
   *  source's count and the corrected count agree. */
  lemma HackerMatchesCorrectedOnCleanLog(save: THSaveData)
    requires save.creaturesGlitched.Some?
    requires NoDuplicates(save.creaturesGlitched.value)
    requires forall i | 0 <= i < |save.creaturesGlitched.value| :: IsHackerCreature(save.creaturesGlitched.value[i])
    ensures Hacker(save) == HackerCorrected(save)
  {
    var glitched := save.creaturesGlitched.value;
    assert (set c | c in glitched && IsHackerCreature(c)) == (set c | c in glitched);
    DistinctElements(glitched);
  }

  /** Logging one more creature raises the source's Hacker count by one,
   *  whatever the creature: a repeated entry or a creature the Hacker list
   *  leaves out counts too. The corrected count rises only for a required
   *  creature not logged before. */
  lemma HackerCountsEveryEntry(save: THSaveData, c: Creature)
    requires save.creaturesGlitched.Some?
    ensures var more := save.(creaturesGlitched := Some(save.creaturesGlitched.value + [c]));
      Hacker(more).current == Hacker(save).current + 1 &&
      HackerCorrected(more).current
        == HackerCorrected(save).current
         + (if c in save.creaturesGlitched.value || !IsHackerCreature(c) then 0 else 1)
  {
    var glitched := save.creaturesGlitched.value;
    var before := set x | x in glitched && IsHackerCreature(x);
    var after := set x | x in glitched + [c] && IsHackerCreature(x);
    if IsHackerCreature(c) {
      assert after == before + {c};
    } else {
      assert after == before;
    }
  }

  /** A glitch log holding every required creature but the k-th one of the
   *  Hacker list, plus Jormite, which the list leaves out. */
  function AllButOnePlusJormite(k: int): seq<Creature>
    requires 0 <= k < |AchievementList()|
  {
    AchievementList()[..k] + AchievementList()[k + 1..] + [Jormite]
  }

  /** Dropping the k-th entry of a sequence without duplicates removes that
   *  element and keeps every other one. */
  lemma DropEntryMembers(list: seq<Creature>, k: int, c: Creature)
    requires 0 <= k < |list|
    requires NoDuplicates(list)
    ensures c in list[..k] + list[k + 1..] <==> c in list && c != list[k]
  {
    if c in list && c != list[k] {
      var j :| 0 <= j < |list| && list[j] == c;
      if j < k {
        assert list[..k][j] == c;
      } else {
        assert list[k + 1..][j - k - 1] == c;
      }
    }
    if c in list[..k] {
      var j :| 0 <= j < k && list[..k][j] == c;
      assert list[j] == c;
    }
    if c in list[k + 1..] {
      var j :| 0 <= j < |list| - k - 1 && list[k + 1..][j] == c;
      assert list[k + 1 + j] == c;
    }
  }

  /** That log names Jormite and every required creature except the k-th. */
  lemma AllButOnePlusJormiteMembers(k: int, c: Creature)
    requires 0 <= k < |AchievementList()|
    ensures c in AllButOnePlusJormite(k)
        <==> (IsHackerCreature(c) && c != AchievementList()[k]) || c == Jormite
  {
    AchievementListIsHackerSet();
    DropEntryMembers(AchievementList(), k, c);
  }

  /** On such a log the source's Hacker count reports 59/59 although one
   *  required creature is still missing; the corrected count reports 58. */
  lemma HackerOvercount(save: THSaveData, k: int)
    requires 0 <= k < |AchievementList()|
    requires save.creaturesGlitched == Some(AllButOnePlusJormite(k))
    ensures Hacker(save) == Progress(59, 59)
    ensures HackerRequires(save) == Some([AchievementList()[k]])
    ensures HackerCorrected(save) == Progress(58, 59)
  {
    AchievementListIsHackerSet();
    var missing := AchievementList()[k];
    var required := HackerRequires(save).value;
    forall c ensures c in required <==> c == missing {
      AllButOnePlusJormiteMembers(k, c);
    }
    assert (set c | c in required) == {missing};
    DistinctElements(required);
    assert required == [missing] by {
      assert required[0] in required;
    }
    HackerCorrectedMatchesRequires(save);
  }

  /** The smallest such save: Arachnoptopus, the first creature of the list,
   *  is the one missing. */
  lemma HackerOvercountWitness()
    ensures var save := THSaveData(0, 0, 0, 0, 0, [], None, Some(AllButOnePlusJormite(0)));
      Hacker(save) == Progress(59, 59) &&
      HackerRequires(save) == Some([Arachnoptopus]) &&
      HackerCorrected(save) == Progress(58, 59)
  {
    AchievementListIsHackerSet();
    HackerOvercount(THSaveData(0, 0, 0, 0, 0, [], None, Some(AllButOnePlusJormite(0))), 0);
    assert AchievementList()[0] == Arachnoptopus;
  }

  /* ---------------------------------------------------------------------- */
  /* Pacifist and the bosses                                                */
  /* ---------------------------------------------------------------------- */

  /** Pacifist: failed once the Clone boss is dead. */
  function Pacifist(save: THSaveData): (s: Status)
    ensures s == Failed <==>
      save.speedrunCheckpoints.Some? &&
      exists i :: 0 <= i < |save.speedrunCheckpoints.value| && save.speedrunCheckpoints.value[i].name == "Clone"
  {
    match BossStateOf(save, "Clone")
    case Alive => OK
    case Dead => Failed
  }

  /** The label a boss carries in the report: the Vision boss is shown as
   *  Hallucination, the achievement's name, and every other boss under its
   *  own name. */
  function BossLabel(boss: string): string
  {
    if boss == "Vision" then "Hallucination" else boss
  }

  /** The report line of one boss: its label and its state, the state being
   *  looked up under the boss's own name. */
  function BossReport(save: THSaveData, boss: string): (line: Line)
    ensures line.BossLine? && line.heading == BossLabel(boss)
    ensures line.state == Dead <==>
      save.speedrunCheckpoints.Some? &&
      exists k :: 0 <= k < |save.speedrunCheckpoints.value| && save.speedrunCheckpoints.value[k].name == boss
  {
    BossLine(BossLabel(boss), BossStateOf(save, boss))
  }

  /** Only Vision is relabelled, its state is still the one logged under
   *  "Vision", and the eight labels stay distinct. */
  lemma BossLabelsRenameOnlyVision(save: THSaveData)
    ensures BossReport(save, "Vision") == BossLine("Hallucination", BossStateOf(save, "Vision"))
    ensures forall i | 0 <= i < |Bosses| && Bosses[i] != "Vision" :: BossLabel(Bosses[i]) == Bosses[i]
    ensures forall i, j | 0 <= i < j < |Bosses| :: BossLabel(Bosses[i]) != BossLabel(Bosses[j])
  {
  }

  /* ---------------------------------------------------------------------- */
  /* The reports                                                            */
  /* ---------------------------------------------------------------------- */

  /** The seven 100% lines, the first of both reports. */
  function ItemLines(save: THSaveData): (lines: seq<Line>)
    ensures |lines| == 7
  {
    [
      CountLine("100% Health", AllHealth(save)),
      CountLine("100% Items", AllItems(save)),
      CountLine("100% Map", AllMap(save)),
      CountLine("100% Notes", AllNotes(save)),
      CountLine("100% Power", AllPower(save)),
      CountLine("100% Tools", AllTools(save)),
      CountLine("100% Weapons", AllWeapons(save)) ]
  }

  /** The six counter and verdict lines that follow them in both reports;
   *  the fourth is Hacker, with the source's count. */
  function CounterLines(save: THSaveData): (lines: seq<Line>)
    ensures |lines| == 6
    ensures lines[3] == CountLine("Hacker", Hacker(save))
  {
    [
      CountLine("Brick Breaker", BrickBreaker(save)),
      CountLine("Bubble Breaker", BubbleBreaker(save)),
      CountLine("Hack", Hack(save)),
      CountLine("Hacker", Hacker(save)),
      StatusLine("Low %", ItemCounts(save), LowPercent(save)),
      StatusLine("Mostly Invincible", Progress(save.numDeaths, 1), MostlyInvincible(save)) ]
  }

  /** The fourteen achievement lines of src/achievements.rs, in report
   *  order: the Hacker line is the eleventh and carries the source's count,
   *  the Pacifist line is the last. */
  function AchievementLines(save: THSaveData): (lines: seq<Line>)
    ensures |lines| == 14
    ensures lines[10] == CountLine("Hacker", Hacker(save))
    ensures lines[13] == PacifistLine(BossStateOf(save, "Clone"), Pacifist(save))
  {
    var counters := CounterLines(save);
    var lines := ItemLines(save) + counters + [PacifistLine(BossStateOf(save, "Clone"), Pacifist(save))];
    assert lines[10] == counters[3];
    lines
  }

  /** One line per boss, in the boss list's order: the boss's report label,
   *  and Dead exactly when the checkpoint log names the boss. */
  function BossLines(save: THSaveData): (lines: seq<Line>)
    ensures |lines| == |Bosses|
    ensures forall i | 0 <= i < |Bosses| ::
      lines[i].BossLine? && lines[i].heading == BossLabel(Bosses[i]) &&
      (lines[i].state == Dead <==>
        save.speedrunCheckpoints.Some? &&
        exists k :: 0 <= k < |save.speedrunCheckpoints.value| && save.speedrunCheckpoints.value[k].name == Bosses[i])
  {
    seq(|Bosses|, i requires 0 <= i < |Bosses| => BossReport(save, Bosses[i]))
  }

  /** The achievement report of src/achievements.rs: the fourteen
   *  achievement lines, then one line for each of the eight bosses. */
  function ProgressReport(save: THSaveData): (report: seq<Line>)
    ensures |report| == 22
    ensures report[10] == CountLine("Hacker", Hacker(save))
    ensures report[14..] == BossLines(save)
  {
    AchievementLines(save) + BossLines(save)
  }

  /** The report has 22 lines; line 13 is the Pacifist verdict, Failed
   *  exactly when Clone is logged; from line 14 on, line 14 + i reports the
   *  i-th boss of the boss list. */
  lemma ProgressReportLayout(save: THSaveData)
    ensures |ProgressReport(save)| == 22
    ensures ProgressReport(save)[10] == CountLine("Hacker", Hacker(save))
    ensures ProgressReport(save)[13].PacifistLine?
    ensures ProgressReport(save)[13].status == Failed <==> BossStateOf(save, "Clone") == Dead
    ensures forall i | 0 <= i < |Bosses| :: ProgressReport(save)[14 + i] == BossLines(save)[i]
  {
  }

  /** The report as intended: the Hacker line carries the corrected count,
   *  every other line is the source's. */
  function CorrectedProgressReport(save: THSaveData): (report: seq<Line>)
    ensures |report| == |ProgressReport(save)|
    ensures forall i | 0 <= i < |report| && i != 10 :: report[i] == ProgressReport(save)[i]
    ensures report[10] == CountLine("Hacker", HackerCorrected(save))
  {
    ProgressReport(save)[10 := CountLine("Hacker", HackerCorrected(save))]
  }

  /** On the corrected report, the Hacker line and the list of creatures
   *  still required always add up to the Hacker target. */
  lemma CorrectedReportAgreesWithRequires(save: THSaveData)
    requires save.creaturesGlitched.Some?
    ensures HackerRequires(save).Some?
    ensures CorrectedProgressReport(save)[10].progress.current + |HackerRequires(save).value| == 59
  {
    HackerCorrectedMatchesRequires(save);
  }

  /** The report of the copy in src/savedata.rs: the same lines, except that
   *  this copy has no Pacifist line, so it is one line shorter. */
  function SaveDataProgressReport(save: THSaveData): (report: seq<Line>)
    ensures |report| == 21
    ensures report[10] == CountLine("Hacker", Hacker(save))
  {
    ItemLines(save) + CounterLines(save) + BossLines(save)
  }

  /** The two copies of the report differ in the Pacifist line only. */
  lemma ReportsDifferOnlyInPacifist(save: THSaveData)
    ensures SaveDataProgressReport(save) == ProgressReport(save)[..13] + ProgressReport(save)[14..]
    ensures forall i | 0 <= i < |SaveDataProgressReport(save)| :: !SaveDataProgressReport(save)[i].PacifistLine?
  {
    var lines := AchievementLines(save);
    assert ProgressReport(save)[..13] == lines[..13];
    assert ProgressReport(save)[14..] == BossLines(save);
  }

  /** A save whose checkpoint log names only Xedur, once or more and at any
   *  frame count, reports Xedur dead and every other boss alive, Clone
   *  included, so Pacifist is OK. */
  lemma OnlyXedurDefeated(save: THSaveData)
    requires save.speedrunCheckpoints.Some? && |save.speedrunCheckpoints.value| > 0
    requires forall k | 0 <= k < |save.speedrunCheckpoints.value| :: save.speedrunCheckpoints.value[k].name == "Xedur"
    ensures BossLines(save)[0] == BossLine("Xedur", Dead)
    ensures forall i | 1 <= i < |Bosses| :: BossLines(save)[i].state == Alive
    ensures Pacifist(save) == OK
  {
  }
}
