/** Model of the save-data schema of src/savedata.rs and of the helper queries
 *  the achievement rules run over it.
 *
 *  Only what the achievement rules read is modelled: the closed vocabularies
 *  (creatures, item categories) with their serialized tokens, and the item,
 *  checkpoint, glitch-log and counter fields of the save record. The record is
 *  decoded once and never changed afterwards, so everything here is a value
 *  and every query is a function. */
module SaveData {

  datatype Option<T> = None | Some(value: T)

  /* ---------------------------------------------------------------------- */
  /* Constants                                                              */
  /* ---------------------------------------------------------------------- */

  const AchievementAllHealth := 13
  const AchievementAllNotes := 28
  const AchievementAllPower := 9
  const AchievementAllRange := 4
  const AchievementAllSize := 4
  const AchievementAllTools := 16
  const AchievementAllWeapons := 20
  const AchievementBrickBreaker := 2000
  const AchievementBubbleBreaker := 2000
  const FragmentsPerNode := 5

  /** The bosses whose defeat the save file records. Athetos is missing
   *  because the game does not save after his defeat. */
  const Bosses: seq<string> :=
    ["Xedur", "Telal", "Uruku", "Gir-Tab", "Vision", "Clone", "Ukhu", "Sentinel"]

  /** No element occurs twice in a sequence. */
  predicate NoDuplicates<T(==)>(s: seq<T>)
  {
    forall i, j | 0 <= i < j < |s| :: s[i] != s[j]
  }

  /** A duplicate-free sequence has as many distinct elements as entries. */
  lemma {:induction false} DistinctElements<T>(s: seq<T>)
    requires NoDuplicates(s)
    ensures |set x | x in s| == |s|
  {
    if s != [] {
      var n := |s| - 1;
      DistinctElements(s[..n]);
      assert (set x | x in s) == (set x | x in s[..n]) + {s[n]};
      assert s[n] !in s[..n];
    }
  }

  /* ---------------------------------------------------------------------- */
  /* Creatures                                                              */
  /* ---------------------------------------------------------------------- */

  /** The creatures the game can record in its glitch log, in the order the
   *  enum declares them. Equality is by variant, never by display name. */
  datatype Creature =
      // Fauna
      Arachnoptopus
    | Artichoker
    | Blite
    | Blurst
    | BlurstSpawn
    | Buoyg
    | Drometon
    | EyeCopter
    | FlynnStone
    | Fungine
    | Furglot
    | Gill
    | Glugg
    | Hookfish
    | Jorm
    | Jormite
    | LoopDiatom
    | Mogra
    | Mutant
    | Pliaa
    | Potato
    | Prongfish
    | Quadropus
    | Rugg
    | Scorpiant
    | Seamk
    | SmallMogra
    | Snailborg
    | SpaceBat
    | Spidler
    | Spiru
    | SpitBug
    | SpitBugBossSpawn
    | SwarmilyChild
    | SwarmilyParent
    | TrapClaw
    | TubeWorm
    | Volg
    | Yorchug
    | TubePuff
    | LoopDiatomViolet
    | MutantStrong
    | RuggMeta
    | SnailborgMeta
    | TrapClawGamma
    | TrapClawMeta
      // Flora
    | Goolumn
    | Hoverling
    | MushroomPoof
    | SpungusSpore
    | TentacleGrass
    | WillOWisp
      // Mechanized
    | Annihiwaiter
    | Diskko
    | Donaught
    | Hoverbug
    | RepairDrone
    | SentryBot
    | TieFlighter
    | SentryBotMeta
      // Other
    | Nrok
    | SpitbugNest

  /** The display name of a creature, as the game's bestiary lists it. */
  function CreatureName(c: Creature): string
  {
    match c
    case Arachnoptopus    => "Hopping Spider"
    case Artichoker       => "Hopping Shrubback"
    case Blite            => "Red Wasp"
    case Blurst           => "Slug"
    case BlurstSpawn      => "Slug Swarm"
    case Buoyg            => "Green Glider"
    case Drometon         => "Drometon"
    case EyeCopter        => "Firefly"
    case FlynnStone       => "Cyberdog"
    case Fungine          => "Jellyfish"
    case Furglot          => "Parasitic Shrub"
    case Gill             => "Laser Sea Urchin"
    case Glugg            => "Giant Boulderback"
    case Hookfish         => "Ancient Tunnel Hopper"
    case Jorm             => "Giant Greenworm"
    case Jormite          => "Baby Giant Greenworm"
    case LoopDiatom       => "Pink Giant Diatom"
    case Mogra            => "Mothmite"
    case Mutant           => "Brown Ghoul"
    case Pliaa            => "Red Flying Krill"
    case Potato           => "Pillbug"
    case Prongfish        => "Tunnel Hopper"
    case Quadropus        => "Sudran Squid"
    case Rugg             => "Green Roller"
    case Scorpiant        => "Scorpiant"
    case Seamk            => "Purple Flying Krill"
    case SmallMogra       => "Baby Mothmite"
    case Snailborg        => "Red Nautilus"
    case SpaceBat         => "Space Bat"
    case Spidler          => "Carnivorous Silk Bug"
    case Spiru            => "Spiru"
    case SpitBug          => "Purple Wasp"
    case SpitBugBossSpawn => "Ukhu Spawn"
    case SwarmilyChild    => "Small Butterfly"
    case SwarmilyParent   => "Large Butterfly"
    case TrapClaw         => "Purple Scissorbeak"
    case TubeWorm         => "Yellow Sea Sponge"
    case Volg             => "Green Gilk Pupae"
    case Yorchug          => "Green Cephalopod"
    case TubePuff         => "Green Sea Sponge"
    case LoopDiatomViolet => "Purple Giant Diatom"
    case MutantStrong     => "Gray Ghoul"
    case RuggMeta         => "Magenta Roller"
    case SnailborgMeta    => "Blue Nautilus"
    case TrapClawGamma    => "Cyan Scissorbeak"
    case TrapClawMeta     => "Red Scissorbeak"
    case Goolumn          => "Orb Wall"
    case Hoverling        => "Blade Vine"
    case MushroomPoof     => "Walking Shrub"
    case SpungusSpore     => "Mushroom Spores"
    case TentacleGrass    => "Poison Grate Plant"
    case WillOWisp        => "Will o Wisp"
    case Annihiwaiter     => "Annihiwaiter"
    case Diskko           => "Omni-Sentry"
    case Donaught         => "Beholder Sentry"
    case Hoverbug         => "Ancient Sentry"
    case RepairDrone      => "Repair Drone"
    case SentryBot        => "Silver Sentry"
    case TieFlighter      => "T-Type Sentry"
    case SentryBotMeta    => "Purple Sentry"
    case Nrok             => "Boulder"
    case SpitbugNest      => "Hive"
  }

  /** The serialized token of a creature: its variant name, or the name its
   *  rename attribute gives. */
  function CreatureToken(c: Creature): string
  {
    match c
    case Arachnoptopus    => "Arachnoptopus"
    case Artichoker       => "Artichoker"
    case Blite            => "Blite"
    case Blurst           => "Blurst"
    case BlurstSpawn      => "BlurstSpawn"
    case Buoyg            => "Buoyg"
    case Drometon         => "Drometon"
    case EyeCopter        => "EyeCopter"
    case FlynnStone       => "FlynnStone"
    case Fungine          => "Fungine"
    case Furglot          => "Furglot"
    case Gill             => "Gill"
    case Glugg            => "Glugg"
    case Hookfish         => "Hookfish"
    case Jorm             => "Jorm"
    case Jormite          => "Jormite"
    case LoopDiatom       => "LoopDiatom"
    case Mogra            => "Mogra"
    case Mutant           => "Mutant"
    case Pliaa            => "Pliaa"
    case Potato           => "Potato"
    case Prongfish        => "Prongfish"
    case Quadropus        => "Quadropus"
    case Rugg             => "Rugg"
    case Scorpiant        => "Scorpiant"
    case Seamk            => "Seamk"
    case SmallMogra       => "SmallMogra"
    case Snailborg        => "Snailborg"
    case SpaceBat         => "SpaceBat"
    case Spidler          => "Spidler"
    case Spiru            => "Spiru"
    case SpitBug          => "SpitBug"
    case SpitBugBossSpawn => "SpitBugBossSpawn"
    case SwarmilyChild    => "SwarmilyChild"
    case SwarmilyParent   => "SwarmilyParent"
    case TrapClaw         => "TrapClaw"
    case TubeWorm         => "TubeWorm"
    case Volg             => "Volg"
    case Yorchug          => "Yorchug"
    case TubePuff         => "TubePuff"
    case LoopDiatomViolet => "LoopDiatom_Violet"
    case MutantStrong     => "Mutant_Strong"
    case RuggMeta         => "Rugg_Meta"
    case SnailborgMeta    => "Snailborg_Meta"
    case TrapClawGamma    => "TrapClaw_Gamma"
    case TrapClawMeta     => "TrapClaw_Meta"
    case Goolumn          => "Goolumn"
    case Hoverling        => "Hoverling"
    case MushroomPoof     => "MushroomPoof"
    case SpungusSpore     => "SpungusSpore"
    case TentacleGrass    => "TentacleGrass"
    case WillOWisp        => "WillOWisp"
    case Annihiwaiter     => "Annihiwaiter"
    case Diskko           => "Diskko"
    case Donaught         => "Donaught"
    case Hoverbug         => "Hoverbug"
    case RepairDrone      => "RepairDrone"
    case SentryBot        => "SentryBot"
    case TieFlighter      => "TieFlighter"
    case SentryBotMeta    => "SentryBot_Meta"
    case Nrok             => "Nrok"
    case SpitbugNest      => "SpitbugNest"
  }

  /** The second token TubePuff is accepted under. It is never produced as
   *  TubePuff's own token. */
  const TubePuffAlias := "TubeWorm_Meta"

  /** Narrows a text down to the one creature whose token has the same
   *  length, second character and last character; these three tell all the
   *  tokens apart. Only a candidate: the decoder still compares in full. */
  function TokenCandidate(s: string): Option<Creature>
  {
    match |s|
    case 4 =>
      (match s[3]
       case 'g' =>
         (match s[1]
          case 'o' => Some(Volg)
          case 'u' => Some(Rugg)
          case _ => None)
       case 'k' => Some(Nrok)
       case 'l' => Some(Gill)
       case 'm' => Some(Jorm)
       case _ => None)
    case 5 =>
      (match s[4]
       case 'a' =>
         (match s[1]
          case 'l' => Some(Pliaa)
          case 'o' => Some(Mogra)
          case _ => None)
       case 'e' => Some(Blite)
       case 'g' =>
         (match s[1]
          case 'l' => Some(Glugg)
          case 'u' => Some(Buoyg)
          case _ => None)
       case 'k' => Some(Seamk)
       case 'u' => Some(Spiru)
       case _ => None)
    case 6 =>
      (match s[5]
       case 'o' =>
         (match s[1]
          case 'i' => Some(Diskko)
          case 'o' => Some(Potato)
          case _ => None)
       case 't' =>
         (match s[1]
          case 'l' => Some(Blurst)
          case 'u' => Some(Mutant)
          case _ => None)
       case _ => None)
    case 7 =>
      (match s[6]
       case 'e' =>
         (match s[1]
          case 'o' => Some(Jormite)
          case 'u' => Some(Fungine)
          case _ => None)
       case 'g' =>
         (match s[1]
          case 'o' => Some(Yorchug)
          case 'p' => Some(SpitBug)
          case _ => None)
       case 'n' => Some(Goolumn)
       case 'r' => Some(Spidler)
       case 't' => Some(Furglot)
       case _ => None)
    case 8 =>
      (match s[7]
       case 'f' => Some(TubePuff)
       case 'g' => Some(Hoverbug)
       case 'h' => Some(Hookfish)
       case 'm' => Some(TubeWorm)
       case 'n' => Some(Drometon)
       case 't' =>
         (match s[1]
          case 'o' => Some(Donaught)
          case 'p' => Some(SpaceBat)
          case _ => None)
       case 'w' => Some(TrapClaw)
       case _ => None)
    case 9 =>
      (match s[8]
       case 'a' => Some(RuggMeta)
       case 'g' =>
         (match s[1]
          case 'n' => Some(Snailborg)
          case 'o' => Some(Hoverling)
          case _ => None)
       case 'h' => Some(Prongfish)
       case 'p' => Some(WillOWisp)
       case 'r' => Some(EyeCopter)
       case 's' => Some(Quadropus)
       case 't' =>
         (match s[1]
          case 'c' => Some(Scorpiant)
          case 'e' => Some(SentryBot)
          case _ => None)
       case _ => None)
    case 10 =>
      (match s[9]
       case 'a' => Some(SmallMogra)
       case 'e' => Some(FlynnStone)
       case 'm' => Some(LoopDiatom)
       case 'r' => Some(Artichoker)
       case _ => None)
    case 11 =>
      (match s[10]
       case 'e' => Some(RepairDrone)
       case 'n' => Some(BlurstSpawn)
       case 'r' => Some(TieFlighter)
       case 't' => Some(SpitbugNest)
       case _ => None)
    case 12 =>
      (match s[11]
       case 'e' => Some(SpungusSpore)
       case 'f' => Some(MushroomPoof)
       case 'r' => Some(Annihiwaiter)
       case _ => None)
    case 13 =>
      (match s[12]
       case 'a' => Some(TrapClawMeta)
       case 'd' => Some(SwarmilyChild)
       case 'g' => Some(MutantStrong)
       case 's' =>
         (match s[1]
          case 'e' => Some(TentacleGrass)
          case 'r' => Some(Arachnoptopus)
          case _ => None)
       case _ => None)
    case 14 =>
      (match s[13]
       case 'a' =>
         (match s[1]
          case 'e' => Some(SentryBotMeta)
          case 'n' => Some(SnailborgMeta)
          case 'r' => Some(TrapClawGamma)
          case _ => None)
       case 't' => Some(SwarmilyParent)
       case _ => None)
    case 16 =>
      (match s[15]
       case 'n' => Some(SpitBugBossSpawn)
       case _ => None)
    case 17 =>
      (match s[16]
       case 't' => Some(LoopDiatomViolet)
       case _ => None)
    case _ => None
  }

  /** Decodes a serialized creature token: the creature whose token it is,
   *  TubePuff for its alias, and a decode failure for any other text. */
  function CreatureFromToken(s: string): (r: Option<Creature>)
    ensures r.Some? ==> s == CreatureToken(r.value) || (r.value == TubePuff && s == TubePuffAlias)
  {
    if s == TubePuffAlias then
      Some(TubePuff)
    else
      match TokenCandidate(s)
      case Some(c) => if CreatureToken(c) == s then Some(c) else None
      case None => None
  }

  /** The candidate lookup finds the creatures of each group from their
   *  tokens; the groups follow the declaration order, eight at a time. */
  lemma CandidateOfTokenGroup1(c: Creature)
    ensures (
          c.Arachnoptopus? || c.Artichoker? || c.Blite? || c.Blurst? ||
          c.BlurstSpawn? || c.Buoyg? || c.Drometon? || c.EyeCopter?)
      ==> TokenCandidate(CreatureToken(c)) == Some(c)
  {
    match c
    case Arachnoptopus =>
    case Artichoker =>
    case Blite =>
    case Blurst =>
    case BlurstSpawn =>
    case Buoyg =>
    case Drometon =>
    case EyeCopter =>
    case _ =>
  }

  lemma CandidateOfTokenGroup2(c: Creature)
    ensures (
          c.FlynnStone? || c.Fungine? || c.Furglot? || c.Gill? || c.Glugg? ||
          c.Hookfish? || c.Jorm? || c.Jormite?)
      ==> TokenCandidate(CreatureToken(c)) == Some(c)
  {
    match c
    case FlynnStone =>
    case Fungine =>
    case Furglot =>
    case Gill =>
    case Glugg =>
    case Hookfish =>
    case Jorm =>
    case Jormite =>
    case _ =>
  }

  lemma CandidateOfTokenGroup3(c: Creature)
    ensures (
          c.LoopDiatom? || c.Mogra? || c.Mutant? || c.Pliaa? || c.Potato? ||
          c.Prongfish? || c.Quadropus? || c.Rugg?)
      ==> TokenCandidate(CreatureToken(c)) == Some(c)
  {
    match c
    case LoopDiatom =>
    case Mogra =>
    case Mutant =>
    case Pliaa =>
    case Potato =>
    case Prongfish =>
    case Quadropus =>
    case Rugg =>
    case _ =>
  }

  lemma CandidateOfTokenGroup4(c: Creature)
    ensures (
          c.Scorpiant? || c.Seamk? || c.SmallMogra? || c.Snailborg? ||
          c.SpaceBat? || c.Spidler? || c.Spiru? || c.SpitBug?)
      ==> TokenCandidate(CreatureToken(c)) == Some(c)
  {
    match c
    case Scorpiant =>
    case Seamk =>
    case SmallMogra =>
    case Snailborg =>
    case SpaceBat =>
    case Spidler =>
    case Spiru =>
    case SpitBug =>
    case _ =>
  }

  lemma CandidateOfTokenGroup5(c: Creature)
    ensures (
          c.SpitBugBossSpawn? || c.SwarmilyChild? || c.SwarmilyParent? ||
          c.TrapClaw? || c.TubeWorm? || c.Volg? || c.Yorchug? || c.TubePuff?)
      ==> TokenCandidate(CreatureToken(c)) == Some(c)
  {
    match c
    case SpitBugBossSpawn =>
    case SwarmilyChild =>
    case SwarmilyParent =>
    case TrapClaw =>
    case TubeWorm =>
    case Volg =>
    case Yorchug =>
    case TubePuff =>
    case _ =>
  }

  lemma CandidateOfTokenGroup6(c: Creature)
    ensures (
          c.LoopDiatomViolet? || c.MutantStrong? || c.RuggMeta? ||
          c.SnailborgMeta? || c.TrapClawGamma? || c.TrapClawMeta? ||
          c.Goolumn? || c.Hoverling?)
      ==> TokenCandidate(CreatureToken(c)) == Some(c)
  {
    match c
    case LoopDiatomViolet =>
    case MutantStrong =>
    case RuggMeta =>
    case SnailborgMeta =>
    case TrapClawGamma =>
    case TrapClawMeta =>
    case Goolumn =>
    case Hoverling =>
    case _ =>
  }

  lemma CandidateOfTokenGroup7(c: Creature)
    ensures (
          c.MushroomPoof? || c.SpungusSpore? || c.TentacleGrass? ||
          c.WillOWisp? || c.Annihiwaiter? || c.Diskko? || c.Donaught? ||
          c.Hoverbug?)
      ==> TokenCandidate(CreatureToken(c)) == Some(c)
  {
    match c
    case MushroomPoof =>
    case SpungusSpore =>
    case TentacleGrass =>
    case WillOWisp =>
    case Annihiwaiter =>
    case Diskko =>
    case Donaught =>
    case Hoverbug =>
    case _ =>
  }

  lemma CandidateOfTokenGroup8(c: Creature)
    ensures (
          c.RepairDrone? || c.SentryBot? || c.TieFlighter? ||
          c.SentryBotMeta? || c.Nrok? || c.SpitbugNest?)
      ==> TokenCandidate(CreatureToken(c)) == Some(c)
  {
    match c
    case RepairDrone =>
    case SentryBot =>
    case TieFlighter =>
    case SentryBotMeta =>
    case Nrok =>
    case SpitbugNest =>
    case _ =>
  }


  /** The candidate lookup finds every creature from its token. */
  lemma CandidateOfToken(c: Creature)
    ensures TokenCandidate(CreatureToken(c)) == Some(c)
  {
    CandidateOfTokenGroup1(c);
    CandidateOfTokenGroup2(c);
    CandidateOfTokenGroup3(c);
    CandidateOfTokenGroup4(c);
    CandidateOfTokenGroup5(c);
    CandidateOfTokenGroup6(c);
    CandidateOfTokenGroup7(c);
    CandidateOfTokenGroup8(c);
  }

  /** The alias is not the token of any creature. */
  lemma AliasIsNotAToken(c: Creature)
    ensures CreatureToken(c) != TubePuffAlias
  {
    match c
    case Arachnoptopus | Artichoker | Blite | Blurst | BlurstSpawn | Buoyg | Drometon |
      EyeCopter | FlynnStone | Fungine | Furglot | Gill | Glugg | Hookfish | Jorm |
      Jormite | LoopDiatom | Mogra | Mutant | Pliaa | Potato | Prongfish |
      Quadropus | Rugg | Scorpiant | Seamk | SmallMogra | Snailborg | SpaceBat |
      Spidler | Spiru | SpitBug | SpitBugBossSpawn | SwarmilyChild |
      SwarmilyParent | TrapClaw | TubeWorm | Volg | Yorchug | TubePuff |
      LoopDiatomViolet | MutantStrong | RuggMeta | SnailborgMeta | TrapClawGamma |
      TrapClawMeta | Goolumn | Hoverling | MushroomPoof | SpungusSpore |
      TentacleGrass | WillOWisp | Annihiwaiter | Diskko | Donaught | Hoverbug |
      RepairDrone | SentryBot | TieFlighter | SentryBotMeta | Nrok | SpitbugNest =>
  }

  /** Every creature's token decodes back to that creature. */
  lemma CreatureTokenRoundTrip(c: Creature)
    ensures CreatureFromToken(CreatureToken(c)) == Some(c)
  {
    AliasIsNotAToken(c);
    CandidateOfToken(c);
  }

  /** No two creatures share a token. */
  lemma CreatureTokenInjective(c1: Creature, c2: Creature)
    requires CreatureToken(c1) == CreatureToken(c2)
    ensures c1 == c2
  {
    CandidateOfToken(c1);
    CandidateOfToken(c2);
  }

  /** Decoding fails exactly on the texts that are neither a creature's
   *  token nor the alias. */
  lemma CreatureDecodeFailsOnlyOffTable(s: string)
    ensures CreatureFromToken(s).None? <==> s != TubePuffAlias && forall c :: CreatureToken(c) != s
  {
    forall c | CreatureToken(c) == s
      ensures CreatureFromToken(s).Some?
    {
      CreatureTokenRoundTrip(c);
    }
  }

  /** TubePuff decodes from its own token and from its alias, both give the
   *  same display name, and the alias never becomes the canonical token. */
  lemma TubePuffDecodesFromBothTokens()
    ensures CreatureFromToken("TubePuff") == Some(TubePuff)
    ensures CreatureFromToken(TubePuffAlias) == Some(TubePuff)
    ensures CreatureToken(TubePuff) == "TubePuff"
    ensures CreatureName(TubePuff) == "Green Sea Sponge"
  {
    CreatureTokenRoundTrip(TubePuff);
  }

  /** Every creature other than TubePuff decodes from its own token and from
   *  no other text. */
  lemma DecodesOnlyFromOwnToken(c: Creature, s: string)
    requires c != TubePuff
    ensures CreatureFromToken(s) == Some(c) <==> s == CreatureToken(c)
  {
    CreatureTokenRoundTrip(c);
  }

  /** The rename attributes on their own: the underscore token of each of
   *  the seven renamed creatures, and None for every creature serialized
   *  under its variant name. */
  function RenamedToken(c: Creature): Option<string>
  {
    match c
    case LoopDiatomViolet => Some("LoopDiatom_Violet")
    case MutantStrong     => Some("Mutant_Strong")
    case RuggMeta         => Some("Rugg_Meta")
    case SnailborgMeta    => Some("Snailborg_Meta")
    case TrapClawGamma    => Some("TrapClaw_Gamma")
    case TrapClawMeta     => Some("TrapClaw_Meta")
    case SentryBotMeta    => Some("SentryBot_Meta")
    case _                => None
  }

  /** The token table agrees with the rename attributes. */
  lemma RenamedTokensAreTokens(c: Creature)
    requires RenamedToken(c).Some?
    ensures CreatureToken(c) == RenamedToken(c).value
  {
  }

  /** Each renamed creature decodes from its underscore token and from no
   *  other text. */
  lemma RenamedCreaturesDecodeOnlyFromUnderscoreTokens(c: Creature, s: string)
    requires RenamedToken(c).Some?
    ensures CreatureFromToken(s) == Some(c) <==> s == RenamedToken(c).value
  {
    RenamedTokensAreTokens(c);
    DecodesOnlyFromOwnToken(c, s);
  }

  /** A rename written out: the underscore token decodes, the bare variant
   *  name is a decode failure. */
  lemma SentryBotMetaDecodesOnlyRenamed()
    ensures CreatureFromToken("SentryBot_Meta") == Some(SentryBotMeta)
    ensures CreatureFromToken("SentryBotMeta") == None
  {
  }

  /** Another rename written out. */
  lemma MutantStrongDecodesOnlyRenamed()
    ensures CreatureFromToken("Mutant_Strong") == Some(MutantStrong)
    ensures CreatureFromToken("MutantStrong") == None
  {
  }

  /* ---------------------------------------------------------------------- */
  /* The Hacker achievement's creature list                                 */
  /* ---------------------------------------------------------------------- */

  /** Entry i of the list of creatures the Hacker achievement requires, in
   *  the order the source lists them. */
  function RequiredCreatureAt(i: int): Creature
    requires 0 <= i < 59
  {
    match i
    case 0  => Arachnoptopus
    case 1  => Artichoker
    case 2  => Blite
    case 3  => Blurst
    case 4  => BlurstSpawn
    case 5  => Buoyg
    case 6  => Drometon
    case 7  => EyeCopter
    case 8  => FlynnStone
    case 9  => Fungine
    case 10 => Furglot
    case 11 => Gill
    case 12 => Glugg
    case 13 => Hookfish
    case 14 => Jorm
    case 15 => LoopDiatom
    case 16 => LoopDiatomViolet
    case 17 => Mogra
    case 18 => Mutant
    case 19 => MutantStrong
    case 20 => Pliaa
    case 21 => Potato
    case 22 => Prongfish
    case 23 => Quadropus
    case 24 => Rugg
    case 25 => RuggMeta
    case 26 => Scorpiant
    case 27 => Seamk
    case 28 => SmallMogra
    case 29 => Snailborg
    case 30 => SnailborgMeta
    case 31 => SpaceBat
    case 32 => Spidler
    case 33 => Spiru
    case 34 => SpitBug
    case 35 => SpitBugBossSpawn
    case 36 => SwarmilyChild
    case 37 => SwarmilyParent
    case 38 => TrapClaw
    case 39 => TrapClawGamma
    case 40 => TrapClawMeta
    case 41 => TubePuff
    case 42 => TubeWorm
    case 43 => Volg
    case 44 => Yorchug
    case 45 => Goolumn
    case 46 => Hoverling
    case 47 => MushroomPoof
    case 48 => SpungusSpore
    case 49 => WillOWisp
    case 50 => Annihiwaiter
    case 51 => Diskko
    case 52 => Donaught
    case 53 => Hoverbug
    case 54 => SentryBot
    case 55 => SentryBotMeta
    case 56 => TieFlighter
    case 57 => Nrok
    case _  => SpitbugNest
  }

  /** The creatures the Hacker achievement requires. */
  function AchievementList(): seq<Creature>
  {
    seq(59, i requires 0 <= i < 59 => RequiredCreatureAt(i))
  }

  /** Whether a creature is required for the Hacker achievement: all but
   *  Jormite, TentacleGrass and RepairDrone. */
  predicate IsHackerCreature(c: Creature)
  {
    !(c.Jormite? || c.TentacleGrass? || c.RepairDrone?)
  }

  /** Proof device: where a creature stands in the Hacker list, or -1. */
  function ListPosition(c: Creature): int
  {
    match c
    case Arachnoptopus    => 0
    case Artichoker       => 1
    case Blite            => 2
    case Blurst           => 3
    case BlurstSpawn      => 4
    case Buoyg            => 5
    case Drometon         => 6
    case EyeCopter        => 7
    case FlynnStone       => 8
    case Fungine          => 9
    case Furglot          => 10
    case Gill             => 11
    case Glugg            => 12
    case Hookfish         => 13
    case Jorm             => 14
    case Jormite          => -1
    case LoopDiatom       => 15
    case Mogra            => 17
    case Mutant           => 18
    case Pliaa            => 20
    case Potato           => 21
    case Prongfish        => 22
    case Quadropus        => 23
    case Rugg             => 24
    case Scorpiant        => 26
    case Seamk            => 27
    case SmallMogra       => 28
    case Snailborg        => 29
    case SpaceBat         => 31
    case Spidler          => 32
    case Spiru            => 33
    case SpitBug          => 34
    case SpitBugBossSpawn => 35
    case SwarmilyChild    => 36
    case SwarmilyParent   => 37
    case TrapClaw         => 38
    case TubeWorm         => 42
    case Volg             => 43
    case Yorchug          => 44
    case TubePuff         => 41
    case LoopDiatomViolet => 16
    case MutantStrong     => 19
    case RuggMeta         => 25
    case SnailborgMeta    => 30
    case TrapClawGamma    => 39
    case TrapClawMeta     => 40
    case Goolumn          => 45
    case Hoverling        => 46
    case MushroomPoof     => 47
    case SpungusSpore     => 48
    case TentacleGrass    => -1
    case WillOWisp        => 49
    case Annihiwaiter     => 50
    case Diskko           => 51
    case Donaught         => 52
    case Hoverbug         => 53
    case RepairDrone      => -1
    case SentryBot        => 54
    case TieFlighter      => 56
    case SentryBotMeta    => 55
    case Nrok             => 57
    case SpitbugNest      => 58
  }

  /** Entry i of the Hacker list stands at position i and is required. */
  lemma RequiredCreatureAtPosition(i: int)
    requires 0 <= i < 59
    ensures ListPosition(RequiredCreatureAt(i)) == i
    ensures IsHackerCreature(RequiredCreatureAt(i))
  {
  }

  /** Each required creature of a group is the entry at its position; the
   *  groups follow the declaration order, sixteen at a time. */
  lemma PositionOfRequiredCreatureGroup1(c: Creature)
    requires IsHackerCreature(c)
    ensures (
          c.Arachnoptopus? || c.Artichoker? || c.Blite? || c.Blurst? ||
          c.BlurstSpawn? || c.Buoyg? || c.Drometon? || c.EyeCopter? ||
          c.FlynnStone? || c.Fungine? || c.Furglot? || c.Gill? || c.Glugg? ||
          c.Hookfish? || c.Jorm? || c.Jormite?)
      ==> 0 <= ListPosition(c) < 59 && RequiredCreatureAt(ListPosition(c)) == c
  {
    match c
    case Arachnoptopus =>
    case Artichoker =>
    case Blite =>
    case Blurst =>
    case BlurstSpawn =>
    case Buoyg =>
    case Drometon =>
    case EyeCopter =>
    case FlynnStone =>
    case Fungine =>
    case Furglot =>
    case Gill =>
    case Glugg =>
    case Hookfish =>
    case Jorm =>
    case Jormite =>
    case _ =>
  }

  lemma PositionOfRequiredCreatureGroup2(c: Creature)
    requires IsHackerCreature(c)
    ensures (
          c.LoopDiatom? || c.Mogra? || c.Mutant? || c.Pliaa? || c.Potato? ||
          c.Prongfish? || c.Quadropus? || c.Rugg? || c.Scorpiant? ||
          c.Seamk? || c.SmallMogra? || c.Snailborg? || c.SpaceBat? ||
          c.Spidler? || c.Spiru? || c.SpitBug?)
      ==> 0 <= ListPosition(c) < 59 && RequiredCreatureAt(ListPosition(c)) == c
  {
    match c
    case LoopDiatom =>
    case Mogra =>
    case Mutant =>
    case Pliaa =>
    case Potato =>
    case Prongfish =>
    case Quadropus =>
    case Rugg =>
    case Scorpiant =>
    case Seamk =>
    case SmallMogra =>
    case Snailborg =>
    case SpaceBat =>
    case Spidler =>
    case Spiru =>
    case SpitBug =>
    case _ =>
  }

  lemma PositionOfRequiredCreatureGroup3(c: Creature)
    requires IsHackerCreature(c)
    ensures (
          c.SpitBugBossSpawn? || c.SwarmilyChild? || c.SwarmilyParent? ||
          c.TrapClaw? || c.TubeWorm? || c.Volg? || c.Yorchug? || c.TubePuff? ||
          c.LoopDiatomViolet? || c.MutantStrong? || c.RuggMeta? ||
          c.SnailborgMeta? || c.TrapClawGamma? || c.TrapClawMeta? ||
          c.Goolumn? || c.Hoverling?)
      ==> 0 <= ListPosition(c) < 59 && RequiredCreatureAt(ListPosition(c)) == c
  {
    match c
    case SpitBugBossSpawn =>
    case SwarmilyChild =>
    case SwarmilyParent =>
    case TrapClaw =>
    case TubeWorm =>
    case Volg =>
    case Yorchug =>
    case TubePuff =>
    case LoopDiatomViolet =>
    case MutantStrong =>
    case RuggMeta =>
    case SnailborgMeta =>
    case TrapClawGamma =>
    case TrapClawMeta =>
    case Goolumn =>
    case Hoverling =>
    case _ =>
  }

  lemma PositionOfRequiredCreatureGroup4(c: Creature)
    requires IsHackerCreature(c)
    ensures (
          c.MushroomPoof? || c.SpungusSpore? || c.TentacleGrass? ||
          c.WillOWisp? || c.Annihiwaiter? || c.Diskko? || c.Donaught? ||
          c.Hoverbug? || c.RepairDrone? || c.SentryBot? || c.TieFlighter? ||
          c.SentryBotMeta? || c.Nrok? || c.SpitbugNest?)
      ==> 0 <= ListPosition(c) < 59 && RequiredCreatureAt(ListPosition(c)) == c
  {
    match c
    case MushroomPoof =>
    case SpungusSpore =>
    case TentacleGrass =>
    case WillOWisp =>
    case Annihiwaiter =>
    case Diskko =>
    case Donaught =>
    case Hoverbug =>
    case RepairDrone =>
    case SentryBot =>
    case TieFlighter =>
    case SentryBotMeta =>
    case Nrok =>
    case SpitbugNest =>
    case _ =>
  }


  /** Every required creature is the entry at its position. */
  lemma PositionOfRequiredCreature(c: Creature)
    requires IsHackerCreature(c)
    ensures 0 <= ListPosition(c) < 59
    ensures RequiredCreatureAt(ListPosition(c)) == c
  {
    PositionOfRequiredCreatureGroup1(c);
    PositionOfRequiredCreatureGroup2(c);
    PositionOfRequiredCreatureGroup3(c);
    PositionOfRequiredCreatureGroup4(c);
  }

  /** The Hacker list holds exactly the creatures IsHackerCreature accepts,
   *  each of them once: 59 of the 62 creatures. */
  lemma AchievementListIsHackerSet()
    ensures |AchievementList()| == 59
    ensures forall c :: c in AchievementList() <==> IsHackerCreature(c)
    ensures NoDuplicates(AchievementList())
  {
    var l := AchievementList();
    forall i | 0 <= i < |l|
      ensures ListPosition(l[i]) == i && IsHackerCreature(l[i])
    {
      RequiredCreatureAtPosition(i);
    }
    forall c | IsHackerCreature(c)
      ensures c in l
    {
      PositionOfRequiredCreature(c);
      assert l[ListPosition(c)] == c;
    }
  }

  /* ---------------------------------------------------------------------- */
  /* Item categories                                                        */
  /* ---------------------------------------------------------------------- */

  datatype THItemType =
    | GlitchBombDrop
    | HealthNode
    | HealthNodeFragment
    | HealthDrop
    | Lore
    | PermanentUpgrade
    | PowerNode
    | PowerNodeFragment
    | RangeNode
    | SizeNode
    | Tool
    | Weapon

  /** The upper-snake-case token each item category is serialized as. */
  function ItemTypeToken(t: THItemType): string
  {
    match t
    case GlitchBombDrop     => "GLITCH_BOMB_DROP"
    case HealthNode         => "HEALTH_NODE"
    case HealthNodeFragment => "HEALTH_NODE_FRAGMENT"
    case HealthDrop         => "HEALTH_DROP"
    case Lore               => "LORE"
    case PermanentUpgrade   => "PERMANENT_UPGRADE"
    case PowerNode          => "POWER_NODE"
    case PowerNodeFragment  => "POWER_NODE_FRAGMENT"
    case RangeNode          => "RANGE_NODE"
    case SizeNode           => "SIZE_NODE"
    case Tool               => "TOOL"
    case Weapon             => "WEAPON"
  }

  /** Decodes an item-category token; any other text is a decode failure.
   *  A decoded category is the one whose token is the text, and decoding
   *  fails exactly when no category has the text as its token. */
  function ItemTypeFromToken(s: string): (r: Option<THItemType>)
    ensures r.Some? ==> ItemTypeToken(r.value) == s
    ensures r.None? <==> forall t :: ItemTypeToken(t) != s
  {
    match s
    case "GLITCH_BOMB_DROP"     => Some(GlitchBombDrop)
    case "HEALTH_NODE"          => Some(HealthNode)
    case "HEALTH_NODE_FRAGMENT" => Some(HealthNodeFragment)
    case "HEALTH_DROP"          => Some(HealthDrop)
    case "LORE"                 => Some(Lore)
    case "PERMANENT_UPGRADE"    => Some(PermanentUpgrade)
    case "POWER_NODE"           => Some(PowerNode)
    case "POWER_NODE_FRAGMENT"  => Some(PowerNodeFragment)
    case "RANGE_NODE"           => Some(RangeNode)
    case "SIZE_NODE"            => Some(SizeNode)
    case "TOOL"                 => Some(Tool)
    case "WEAPON"               => Some(Weapon)
    case _                      => None
  }

  /** The category the Default implementation gives. */
  function DefaultItemType(): THItemType
  {
    Weapon
  }

  /** Tokens and categories correspond one to one: every category's token
   *  decodes back to it, and no two categories share a token. */
  lemma ItemTypeTokensAreOneToOne(t: THItemType, u: THItemType)
    ensures ItemTypeFromToken(ItemTypeToken(t)) == Some(t)
    ensures ItemTypeToken(t) == ItemTypeToken(u) ==> t == u
  {
    forall v | ItemTypeToken(v) == ItemTypeToken(t)
      ensures v == t
    {
      match v
      case GlitchBombDrop | HealthNode | HealthNodeFragment | HealthDrop | Lore |
        PermanentUpgrade | PowerNode | PowerNodeFragment | RangeNode | SizeNode |
        Tool | Weapon =>
    }
  }

  /** The upper-snake tokens decode to their categories, the variant names
   *  themselves do not decode, and the default category is Weapon. */
  lemma ItemTypeTokenExamples()
    ensures ItemTypeFromToken("HEALTH_NODE") == Some(HealthNode)
    ensures ItemTypeFromToken("POWER_NODE_FRAGMENT") == Some(PowerNodeFragment)
    ensures ItemTypeFromToken("HealthNode") == None
    ensures ItemTypeFromToken("Weapon") == None
    ensures DefaultItemType() == Weapon
    ensures ItemTypeFromToken("WEAPON") == Some(DefaultItemType())
  {
    ItemTypeTokensAreOneToOne(HealthNode, HealthNode);
    ItemTypeTokensAreOneToOne(PowerNodeFragment, PowerNodeFragment);
    ItemTypeTokensAreOneToOne(Weapon, Weapon);
    forall t
      ensures ItemTypeToken(t) != "HealthNode" && ItemTypeToken(t) != "Weapon"
    {
    }
  }

  /* ---------------------------------------------------------------------- */
  /* The save record                                                        */
  /* ---------------------------------------------------------------------- */

  datatype THItemRecord = THItemRecord(
    name: string,
    itemType: THItemType,
    consumable: bool,
    excludedFromCount: bool,
    requiredItem: Option<string>)

  datatype THSpeedrunCheckpoint = THSpeedrunCheckpoint(name: string, frames: int)

  /** The fields of the save record that the achievement rules read. The
   *  counters are 32-bit signed integers in the file; no rule does arithmetic
   *  on them that could leave that range, so they are unbounded here. */
  datatype THSaveData = THSaveData(
    screenCount: int,
    totalScreenCount: int,
    numDeaths: int,
    redGooDestroyed: int,
    bricksDestroyed: int,
    items: seq<THItemRecord>,
    speedrunCheckpoints: Option<seq<THSpeedrunCheckpoint>>,
    creaturesGlitched: Option<seq<Creature>>)

  /** A (current, needed) pair as the achievement report shows it. */
  datatype Progress = Progress(current: int, needed: int)

  /* ---------------------------------------------------------------------- */
  /* Boss state                                                             */
  /* ---------------------------------------------------------------------- */

  datatype BossState = Alive | Dead

  /** How many checkpoints carry the given name. */
  function CheckpointCount(checkpoints: seq<THSpeedrunCheckpoint>, boss: string): (n: nat)
    ensures n <= |checkpoints|
  {
    if checkpoints == [] then 0
    else
      var last := |checkpoints| - 1;
      CheckpointCount(checkpoints[..last], boss) + (if checkpoints[last].name == boss then 1 else 0)
  }

  /** Some checkpoint carries the given name exactly when the count of such
   *  checkpoints is positive. */
  lemma {:induction false} CheckpointCountPositiveIffLogged(checkpoints: seq<THSpeedrunCheckpoint>, boss: string)
    ensures CheckpointCount(checkpoints, boss) > 0
        <==> exists i :: 0 <= i < |checkpoints| && checkpoints[i].name == boss
  {
    if checkpoints != [] {
      var last := |checkpoints| - 1;
      CheckpointCountPositiveIffLogged(checkpoints[..last], boss);
      assert forall i :: 0 <= i < last ==> checkpoints[..last][i] == checkpoints[i];
    }
  }

  /** Whether a boss is dead: the checkpoint list doubles as a kill log, so a
   *  boss is dead exactly when some checkpoint carries its name, and every
   *  boss is alive when the list is absent. */
  function BossStateOf(save: THSaveData, boss: string): (state: BossState)
    ensures state == Dead <==>
      save.speedrunCheckpoints.Some? &&
      exists i :: 0 <= i < |save.speedrunCheckpoints.value| && save.speedrunCheckpoints.value[i].name == boss
  {
    match save.speedrunCheckpoints
    case Some(checkpoints) =>
      CheckpointCountPositiveIffLogged(checkpoints, boss);
      if CheckpointCount(checkpoints, boss) > 0 then Dead else Alive
    case None => Alive
  }

  /* ---------------------------------------------------------------------- */
  /* Item counts                                                            */
  /* ---------------------------------------------------------------------- */

  /** Whether an item counts toward the tally of category t. */
  predicate CountsToward(item: THItemRecord, t: THItemType)
  {
    item.itemType == t && !item.excludedFromCount
  }

  /** How many items count toward the tally of category t. */
  function CountItems(items: seq<THItemRecord>, t: THItemType): (n: nat)
    ensures n <= |items|
  {
    if items == [] then 0
    else
      var last := |items| - 1;
      CountItems(items[..last], t) + (if CountsToward(items[last], t) then 1 else 0)
  }

  /** The count of a save's items of category t. */
  function ItemTypeCount(save: THSaveData, t: THItemType): nat
  {
    CountItems(save.items, t)
  }

  /** Reference definition: the positions of the items counting toward t. */
  ghost function CountedPositions(items: seq<THItemRecord>, t: THItemType): set<int>
  {
    set i | 0 <= i < |items| && CountsToward(items[i], t)
  }

  /** Removing the last item removes at most its own position. */
  lemma CountedPositionsOfPrefix(items: seq<THItemRecord>, t: THItemType)
    requires items != []
    ensures var last := |items| - 1;
      CountedPositions(items, t)
      == CountedPositions(items[..last], t) + (if CountsToward(items[last], t) then {last} else {})
  {
    var last := |items| - 1;
    forall i | 0 <= i < last
      ensures items[..last][i] == items[i]
    {
    }
  }

  /** The count is the number of positions holding an item of category t
   *  that is not excluded from counting. */
  lemma {:induction false} ItemTypeCountIsPositionCount(items: seq<THItemRecord>, t: THItemType)
    ensures CountItems(items, t) == |CountedPositions(items, t)|
  {
    if items != [] {
      var last := |items| - 1;
      ItemTypeCountIsPositionCount(items[..last], t);
      CountedPositionsOfPrefix(items, t);
      assert last !in CountedPositions(items[..last], t);
    }
  }

  /** Counting distributes over concatenation. */
  lemma {:induction false} CountItemsAppend(a: seq<THItemRecord>, b: seq<THItemRecord>, t: THItemType)
    ensures CountItems(a + b, t) == CountItems(a, t) + CountItems(b, t)
    decreases |b|
  {
    if b == [] {
      assert a + b == a;
    } else {
      var last := |b| - 1;
      CountItemsAppend(a, b[..last], t);
      assert (a + b)[..|a + b| - 1] == a + b[..last];
    }
  }

  /** The count does not depend on the order of the items. */
  lemma {:induction false} ItemTypeCountIgnoresOrder(a: seq<THItemRecord>, b: seq<THItemRecord>, t: THItemType)
    requires multiset(a) == multiset(b)
    ensures CountItems(a, t) == CountItems(b, t)
    decreases |a|
  {
    if a == [] {
      assert |b| == |multiset(b)| == 0;
    } else {
      var last := |a| - 1;
      var x := a[last];
      assert a == a[..last] + [x];
      assert x in multiset(b);
      var j :| 0 <= j < |b| && b[j] == x;
      assert b == b[..j] + [x] + b[j + 1..];
      var rest := b[..j] + b[j + 1..];
      assert multiset(a) == multiset(a[..last]) + multiset{x};
      assert multiset(b) == multiset(b[..j]) + multiset{x} + multiset(b[j + 1..]);
      assert multiset(rest) == multiset(b[..j]) + multiset(b[j + 1..]);
      assert multiset(a[..last]) == multiset(a) - multiset{x};
      assert multiset(rest) == multiset(b) - multiset{x};
      ItemTypeCountIgnoresOrder(a[..last], rest, t);
      CountItemsAppend(a[..last], [x], t);
      CountItemsAppend(b[..j], [x], t);
      CountItemsAppend(b[..j] + [x], b[j + 1..], t);
      CountItemsAppend(b[..j], b[j + 1..], t);
    }
  }

  /** An item excluded from counting never changes any category's count,
   *  wherever it stands among the other items. */
  lemma ExcludedItemNeverCounts(items: seq<THItemRecord>, k: nat, x: THItemRecord, t: THItemType)
    requires k <= |items|
    requires x.excludedFromCount
    ensures CountItems(items[..k] + [x] + items[k..], t) == CountItems(items, t)
  {
    CountItemsAppend(items[..k], [x], t);
    CountItemsAppend(items[..k] + [x], items[k..], t);
    CountItemsAppend(items[..k], items[k..], t);
    assert items[..k] + items[k..] == items;
  }

  /** Items that all count toward category t add |items| to t's count and
   *  nothing to any other category's count. */
  lemma {:induction false} CountItemsOfOneCategory(items: seq<THItemRecord>, t: THItemType, u: THItemType)
    requires forall i | 0 <= i < |items| :: CountsToward(items[i], t)
    ensures CountItems(items, u) == if u == t then |items| else 0
  {
    if items != [] {
      CountItemsOfOneCategory(items[..|items| - 1], t, u);
    }
  }

  /** Health and power fragments count only in whole groups of five: the
   *  remainder of a partial group is dropped, never rounded up. */
  function FoldFragments(fragments: nat): (nodes: nat)
    ensures FragmentsPerNode * nodes <= fragments < FragmentsPerNode * (nodes + 1)
  {
    fragments / FragmentsPerNode
  }

  lemma FragmentFoldingExamples()
    ensures FoldFragments(4) == 0
    ensures FoldFragments(5) == 1
    ensures FoldFragments(9) == 1
    ensures FoldFragments(10) == 2
  {
  }

  /** The ten category counts the 100% tally adds up never exceed the number
   *  of items, since each item has one category. */
  lemma {:induction false} TalliedCategoriesFitItems(items: seq<THItemRecord>)
    ensures CountItems(items, HealthNode) + CountItems(items, HealthNodeFragment)
          + CountItems(items, Lore) + CountItems(items, PowerNode)
          + CountItems(items, PowerNodeFragment) + CountItems(items, RangeNode)
          + CountItems(items, SizeNode) + CountItems(items, Tool)
          + CountItems(items, PermanentUpgrade) + CountItems(items, Weapon)
          <= |items|
  {
    if items != [] {
      TalliedCategoriesFitItems(items[..|items| - 1]);
    }
  }

  /** The 100% items tally: nodes, notes, tools, upgrades and weapons count
   *  one each, fragments in groups of five, against 94 items needed. The
   *  tally never exceeds the number of item records. */
  function ItemCounts(save: THSaveData): (p: Progress)
    ensures p.needed == 94
    ensures 0 <= p.current <= |save.items|
  {
    TalliedCategoriesFitItems(save.items);
    var needed :=
      AchievementAllHealth + AchievementAllNotes + AchievementAllPower
      + AchievementAllRange + AchievementAllSize + AchievementAllTools
      + AchievementAllWeapons;
    var current :=
      ItemTypeCount(save, HealthNode)
      + FoldFragments(ItemTypeCount(save, HealthNodeFragment))
      + ItemTypeCount(save, Lore)
      + ItemTypeCount(save, PowerNode)
      + FoldFragments(ItemTypeCount(save, PowerNodeFragment))
      + ItemTypeCount(save, RangeNode)
      + ItemTypeCount(save, SizeNode)
      + ItemTypeCount(save, Tool)
      + ItemTypeCount(save, PermanentUpgrade)
      + ItemTypeCount(save, Weapon);
    Progress(current, needed)
  }

  /* ---------------------------------------------------------------------- */
  /* Counters and the glitch log                                            */
  /* ---------------------------------------------------------------------- */

  /** Rust's Ord::clamp: the value nearest to x within [lo, hi]. */
  function Clamp(x: int, lo: int, hi: int): (r: int)
    requires lo <= hi
    ensures lo <= r <= hi
    ensures lo <= x <= hi ==> r == x
    ensures x < lo ==> r == lo
    ensures hi < x ==> r == hi
  {
    if x < lo then lo else if hi < x then hi else x
  }

  /** The entries of needs that do not occur in glitched. */
  function Missing(needs: seq<Creature>, glitched: seq<Creature>): (r: seq<Creature>)
    ensures forall c :: c in r <==> c in needs && c !in glitched
    ensures NoDuplicates(needs) ==> NoDuplicates(r)
  {
    if needs == [] then []
    else
      var rest := Missing(needs[1..], glitched);
      assert NoDuplicates(needs) ==> needs[0] !in needs[1..] && NoDuplicates(needs[1..]) by {
        if NoDuplicates(needs) {
          forall i | 0 <= i < |needs[1..]| ensures needs[1..][i] != needs[0] {
            assert needs[1..][i] == needs[i + 1];
          }
        }
      }
      if needs[0] in glitched then rest else [needs[0]] + rest
  }

  /** The creatures still to glitch for the Hacker achievement: absent when
   *  the save has no glitch log, and otherwise every required creature that
   *  the log lacks, each once. The source collects them from a hash set, so
   *  their order is unspecified; this model lists them in list order. */
  function HackerRequires(save: THSaveData): (r: Option<seq<Creature>>)
    ensures r.None? <==> save.creaturesGlitched.None?
    ensures r.Some? ==> NoDuplicates(r.value)
    ensures r.Some? ==> forall c :: c in r.value <==> IsHackerCreature(c) && c !in save.creaturesGlitched.value
  {
    match save.creaturesGlitched
    case None => None
    case Some(glitched) =>
      AchievementListIsHackerSet();
      Some(Missing(AchievementList(), glitched))
  }
}
