/**
 * PartyManager and TurnManager as classes whose fields the operations update in place, as
 * the source's objects do.  Every method is proved to leave the two objects in the state
 * the matching function of module Combat computes from the state it started in, so what
 * the lemmas of Combat prove about those functions holds of these methods.
 *
 * The source passes the two managers to each other's methods; `party`/`turn` parameters
 * that the source passes alongside `this` (always the same object) are dropped.
 */
module Battle {
  import opened Wrappers
  import opened GameObjects
  import opened Characters
  import opened Registry
  import opened Combat

  /** The snapshot of the two managers that the functions of module Combat work on. */
  function WorldOf(p: PartyManager, t: TurnManager): World
    reads p, t
  {
    World(p.State(), t.State())
  }

  class PartyManager {
    var heroPlayer: PlayerKind
    var heroes: seq<Character>
    var monsterPlayer: PlayerKind
    var monsters: seq<Character>
    var waves: seq<seq<Character>>
    var heroGear: seq<Option<Gear>>
    var monsterGear: seq<Option<Gear>>
    var heroItems: seq<Consumable>
    var monsterItems: seq<Consumable>
    var heroTurns: int
    var monsterTurns: int

    function State(): PartyState
      reads this
    {
      PartyState(heroPlayer, heroes, monsterPlayer, monsters, waves, heroGear, monsterGear,
                 heroItems, monsterItems, heroTurns, monsterTurns)
    }

    constructor()
      ensures State() == InitialParty()
    {
      heroPlayer, monsterPlayer := Computer, Computer;
      heroes, monsters, waves := [], [], [];
      heroGear, monsterGear := [Some(BinaryHelmGear())], [Some(DaggerGear())];
      heroItems, monsterItems := [HealthPotion, HealthPotion, HealthPotion], [HealthPotion];
      heroTurns, monsterTurns := 0, 0;
    }

    /** IsPartyEmpty on both lists. */
    function CheckForEmptyParties(): (empty: bool)
      reads this
      ensures empty <==> State().EmptyParties()
    {
      |heroes| == 0 || |monsters| == 0
    }

    method SetRoster(side: Side, r: seq<Character>)
      modifies this
      ensures State() == old(State()).WithRoster(side, r)
    {
      if side == Heroes { heroes := r; } else { monsters := r; }
    }

    method SetGear(side: Side, g: seq<Option<Gear>>)
      modifies this
      ensures State() == old(State()).WithGear(side, g)
    {
      if side == Heroes { heroGear := g; } else { monsterGear := g; }
    }

    method SetItems(side: Side, s: seq<Consumable>)
      modifies this
      ensures State() == old(State()).WithItems(side, s)
    {
      if side == Heroes { heroItems := s; } else { monsterItems := s; }
    }

    // -------------------------------------------------------------------------------------
    // Poison registry

    /**
     * CheckForPoisonedCharacter: walks the registry by index and removes each entry with
     * no turns left, then reports whether entries remain.
     */
    method CheckForPoisonedCharacter(turn: TurnManager) returns (left: bool)
      modifies turn
      ensures turn.State() == old(turn.State()).(poisoned := Prune(old(turn.poisoned)))
      ensures left <==> |turn.poisoned| > 0
    {
      var index: nat := 0;
      while index < |turn.poisoned|
        invariant index <= |turn.poisoned| + 1
        invariant PruneFrom(turn.poisoned, index) == Prune(old(turn.poisoned))
        invariant turn.State() == old(turn.State()).(poisoned := turn.poisoned)
        decreases |turn.poisoned| - index
      {
        var poisoned := turn.poisoned[index];
        if poisoned.turnsPoisoned == 0 {
          turn.poisoned := RemoveFirst(turn.poisoned, poisoned);
        }
        index := index + 1;
      }
      left := |turn.poisoned| > 0;
    }

    /** The entry's character loses one health point. */
    method PoisonEntryAt(e: PoisonEntry)
      modifies this
      ensures heroes == HitEntry(old(heroes), Heroes, e) && monsters == HitEntry(old(monsters), Monsters, e)
      ensures State() == old(State()).(heroes := heroes, monsters := monsters)
    {
      if e.side == Heroes {
        heroes := HitRoster(heroes, e.id);
      } else {
        monsters := HitRoster(monsters, e.id);
      }
    }

    /**
     * The state of PoisonCharacter's loop before entry `index`: the entries before it have
     * hit their characters and lost a turn, nothing else has changed since `s0`/`t0`.
     */
    ghost predicate Poisoning(turn: TurnManager, index: nat, entries: seq<PoisonEntry>, s0: PartyState, t0: TurnState)
      reads this, turn
    {
      index <= |turn.poisoned| == |entries|
      && turn.poisoned == Ticked(entries)[..index] + entries[index..]
      && State() == s0.(heroes := PoisonRoster(s0.heroes, Heroes, entries[..index]),
                        monsters := PoisonRoster(s0.monsters, Monsters, entries[..index]))
      && turn.State() == t0.(poisoned := turn.poisoned)
    }

    /** One iteration of PoisonCharacter's loop. */
    method PoisonStep(turn: TurnManager, index: nat, ghost entries: seq<PoisonEntry>, ghost s0: PartyState, ghost t0: TurnState)
      requires Poisoning(turn, index, entries, s0, t0) && index < |entries|
      modifies this, turn
      ensures Poisoning(turn, index + 1, entries, s0, t0)
    {
      PoisonRosterSnoc(s0.heroes, Heroes, entries, index);
      PoisonRosterSnoc(s0.monsters, Monsters, entries, index);
      TickedStep(entries, turn.poisoned, index);
      var poisoned := turn.poisoned[index];
      assert poisoned == entries[index];
      PoisonEntryAt(poisoned);
      ghost var before := turn.State();
      poisoned := poisoned.(turnsPoisoned := poisoned.turnsPoisoned - 1);
      turn.poisoned := turn.poisoned[index := poisoned];
      assert turn.State() == before.(poisoned := turn.poisoned);
    }

    /** PoisonCharacter: each entry costs its character one health point and loses a turn. */
    method PoisonCharacter(turn: TurnManager)
      modifies this, turn
      ensures turn.State() == old(turn.State()).(poisoned := Ticked(old(turn.poisoned)))
      ensures State() == old(State()).(heroes := PoisonRoster(old(heroes), Heroes, old(turn.poisoned)),
                                       monsters := PoisonRoster(old(monsters), Monsters, old(turn.poisoned)))
    {
      ghost var entries, s0, t0 := turn.poisoned, State(), turn.State();
      assert s0.heroes == old(heroes) && s0.monsters == old(monsters);
      assert entries[..0] == [];
      var index: nat := 0;
      while index < |turn.poisoned|
        invariant Poisoning(turn, index, entries, s0, t0)
        decreases |turn.poisoned| - index
      {
        PoisonStep(turn, index, entries, s0, t0);
        index := index + 1;
      }
      assert index == |entries|;
      PoisonDone(s0.heroes, Heroes, entries);
      PoisonDone(s0.monsters, Monsters, entries);
      assert turn.poisoned == Ticked(entries);
    }

    // -------------------------------------------------------------------------------------
    // Items and gear

    /** UpdateCharacterHealth: heal, clamp, and remove the chosen item when there is one. */
    method UpdateCharacterHealth(turn: TurnManager)
      requires WorldOf(this, turn).Acting()
      requires |WorldOf(this, turn).CurrentItems()| > 0 ==> 0 <= turn.consumableSelectedNumber < |WorldOf(this, turn).CurrentItems()|
      modifies this
      ensures WorldOf(this, turn) == Combat.UpdateCharacterHealth(old(WorldOf(this, turn)))
    {
      var c := WorldOf(this, turn).Selected();
      var healed := c.(currentHP := c.currentHP + turn.currentHealValue);
      SetRoster(turn.side, State().Roster(turn.side)[turn.selected := healed]);
      var clamped := healed.(currentHP := Clamp(healed.currentHP, 0, healed.maxHP));
      SetRoster(turn.side, State().Roster(turn.side)[turn.selected := clamped]);
      var items := State().ItemsOf(turn.side);
      if |items| > 0 {
        var k := turn.consumableSelectedNumber;
        SetItems(turn.side, items[..k] + items[k + 1..]);
      }
    }

    /** EquipGear: EquipArmor or EquipWeapon, then RemoveAt(SelectedGear). */
    method EquipGear(turn: TurnManager)
      requires WorldOf(this, turn).Acting() && 0 <= turn.selectedGear < |WorldOf(this, turn).CurrentGear()|
      modifies this
      ensures WorldOf(this, turn) == Combat.EquipGear(old(WorldOf(this, turn)))
    {
      var gear := State().GearOf(turn.side);
      var g := gear[turn.selectedGear];
      var c := WorldOf(this, turn).Selected();
      if IsArmorSlot(g) {
        SetRoster(turn.side, State().Roster(turn.side)[turn.selected := c.(armor := g)]);
      } else {
        SetRoster(turn.side, State().Roster(turn.side)[turn.selected := c.(weapon := g)]);
      }
      var k := turn.selectedGear;
      SetGear(turn.side, gear[..k] + gear[k + 1..]);
    }

    // -------------------------------------------------------------------------------------
    // The combat pipeline

    /** AttackManager: the hit roll, and the event that reports it. */
    method AttackManager(turn: TurnManager, roll: int) returns (hit: bool)
      modifies turn
      ensures hit <==> Succeeds(old(turn.currentProbability), roll)
      ensures WorldOf(this, turn) == Combat.AttackManager(old(WorldOf(this, turn)), roll)
    {
      hit := Succeeds(turn.currentProbability, roll);
      if hit {
        turn.Notify(AttackSuccessful);
      } else {
        turn.Notify(AttackMissed);
      }
    }

    method ManageModifier(turn: TurnManager)
      requires WorldOf(this, turn).Targeting()
      modifies turn
      ensures WorldOf(this, turn) == Combat.ManageModifier(old(WorldOf(this, turn)))
    {
      var m := WorldOf(this, turn).Target().defensiveModifier;
      match m
      case Some(StoneArmor) =>
        turn.currentTargetModifier := m;
        turn.currentDamage := turn.currentDamage + StoneArmor.Value();
        turn.Notify(ModifierApplied);
      case Some(ObjectSight) =>
        if turn.currentAttack.attackType == Decoding {
          turn.currentTargetModifier := m;
          turn.currentDamage := turn.currentDamage + ObjectSight.Value();
          turn.Notify(ModifierApplied);
        }
      case None =>
    }

    /** StealGear: into the gear inventory of the side CurrentParty selects. */
    method StealGear(turn: TurnManager, g: Option<Gear>)
      modifies this
      ensures WorldOf(this, turn) == Combat.StealGear(old(WorldOf(this, turn)), g)
    {
      if SideOf(turn.roundCounter) == Heroes {
        heroGear := heroGear + [g];
      } else {
        monsterGear := monsterGear + [g];
      }
    }

    method RemoveGearFromTarget(turn: TurnManager)
      requires WorldOf(this, turn).Targeting()
      modifies this
      ensures WorldOf(this, turn) == Combat.RemoveGearFromTarget(old(WorldOf(this, turn)))
    {
      var t := WorldOf(this, turn).Target();
      SetRoster(turn.side.Opponent(), State().Roster(turn.side.Opponent())[turn.currentTarget := t.(weapon := None)]);
    }

    /** CheckSideEffect and ManageSideEffect. */
    method ManageSideEffect(turn: TurnManager, rolls: Rolls)
      requires WorldOf(this, turn).Targeting() && ValidRolls(rolls)
      modifies this, turn
      ensures WorldOf(this, turn) == Combat.ManageSideEffect(old(WorldOf(this, turn)), rolls)
    {
      if turn.currentAttack.sideEffect == Some(Steal) {
        var weapon := WorldOf(this, turn).Target().weapon;
        var armor := WorldOf(this, turn).Target().armor;
        if armor.Some? || weapon.Some? {
          if StealSucceeds(rolls.stealChance, rolls.stealHit) {
            var choice := if rolls.coin == 0 then 0 else 1;
            var gearToBeStolen := if choice == 0 && armor.Some? then armor else weapon;
            StealGear(turn, gearToBeStolen);
            RemoveGearFromTarget(turn);
            turn.Notify(GearStolen);
          }
        }
      }
    }

    /** CheckTemporaryEffect and ApplyTemporaryEffect. */
    method ApplyTemporaryEffect(turn: TurnManager)
      requires WorldOf(this, turn).Targeting()
      modifies turn
      ensures WorldOf(this, turn) == Combat.ApplyTemporaryEffect(old(WorldOf(this, turn)))
    {
      match turn.currentAttack.temporaryEffect
      case Some(Poison) =>
        var poisonedTarget := WorldOf(this, turn).Target();
        turn.poisoned := turn.poisoned + [PoisonEntry(poisonedTarget.id, turn.side.Opponent(), 3, 0)];
        turn.Notify(CharacterPoisoned);
      case _ =>
    }

    method CheckSoulValue(turn: TurnManager)
      requires WorldOf(this, turn).Acting()
      modifies this, turn
      ensures WorldOf(this, turn) == Combat.CheckSoulValue(old(WorldOf(this, turn)))
    {
      var c := WorldOf(this, turn).Selected();
      if c.soulsValue >= 3 {
        turn.currentDamage := turn.currentDamage + 1;
        SetRoster(turn.side, State().Roster(turn.side)[turn.selected := c.(soulsValue := 0)]);
        turn.Notify(SoulBonus);
      }
    }

    method UpdateHealth(turn: TurnManager)
      requires WorldOf(this, turn).Targeting()
      modifies this
      ensures WorldOf(this, turn) == Combat.UpdateHealth(old(WorldOf(this, turn)))
    {
      var t := WorldOf(this, turn).Target();
      var hit := t.(currentHP := t.currentHP - turn.currentDamage);
      SetRoster(turn.side.Opponent(), State().Roster(turn.side.Opponent())[turn.currentTarget := hit]);
      SetRoster(turn.side.Opponent(), State().Roster(turn.side.Opponent())[turn.currentTarget := hit.(currentHP := hit.HealthClamp())]);
    }

    method CheckModifier(turn: TurnManager)
      requires WorldOf(this, turn).Targeting()
      modifies turn
      ensures WorldOf(this, turn) == Combat.CheckModifier(old(WorldOf(this, turn)))
    {
      if Combat.TargetHasDefensiveModifier(WorldOf(this, turn)) {
        ManageModifier(turn);
      }
    }

    method CheckSideEffect(turn: TurnManager, rolls: Rolls)
      requires WorldOf(this, turn).Targeting() && ValidRolls(rolls)
      modifies this, turn
      ensures WorldOf(this, turn) == Combat.CheckSideEffect(old(WorldOf(this, turn)), rolls)
    {
      if turn.currentAttack.sideEffect.Some? {
        ManageSideEffect(turn, rolls);
      }
    }

    method CheckTemporaryEffect(turn: TurnManager)
      requires WorldOf(this, turn).Targeting()
      modifies turn
      ensures WorldOf(this, turn) == Combat.CheckTemporaryEffect(old(WorldOf(this, turn)))
    {
      if turn.currentAttack.temporaryEffect.Some? {
        ApplyTemporaryEffect(turn);
      }
    }

    /** DamageTaken: the hit roll; on a hit the four checks in order, the health update, the report. */
    method DamageTaken(turn: TurnManager, rolls: Rolls)
      requires WorldOf(this, turn).Acting() && WorldOf(this, turn).Targeting() && ValidRolls(rolls)
      modifies this, turn
      ensures WorldOf(this, turn) == Combat.DamageTaken(old(WorldOf(this, turn)), rolls)
    {
      var hit := AttackManager(turn, rolls.hit);
      if hit {
        CheckModifier(turn);
        CheckSideEffect(turn, rolls);
        CheckTemporaryEffect(turn);
        CheckSoulValue(turn);
        UpdateHealth(turn);
        turn.Notify(AttackInfo);
      }
    }

    // -------------------------------------------------------------------------------------
    // Death and the monster waves

    method ManageDeathCharacterGear(turn: TurnManager)
      requires WorldOf(this, turn).Targeting()
      modifies this, turn
      ensures WorldOf(this, turn) == Combat.ManageDeathCharacterGear(old(WorldOf(this, turn)))
    {
      var t := WorldOf(this, turn).Target();
      if t.weapon.Some? {
        SetGear(turn.side, State().GearOf(turn.side) + [t.weapon]);
        turn.Notify(DeathOpponentGearObtained);
      }
    }

    method ManageDeathCharacterSoul(turn: TurnManager)
      requires WorldOf(this, turn).Acting() && WorldOf(this, turn).Targeting()
      modifies this
      ensures WorldOf(this, turn) == Combat.ManageDeathCharacterSoul(old(WorldOf(this, turn)))
    {
      var t := WorldOf(this, turn).Target();
      if t.soulsXP >= 1 {
        var c := WorldOf(this, turn).Selected();
        SetRoster(turn.side, State().Roster(turn.side)[turn.selected := c.(soulsValue := c.soulsValue + t.soulsXP)]);
      }
    }

    method RemoveCharacter(turn: TurnManager)
      requires WorldOf(this, turn).Targeting()
      modifies this
      ensures WorldOf(this, turn) == Combat.RemoveCharacter(old(WorldOf(this, turn)))
    {
      var opponents := State().Roster(turn.side.Opponent());
      var k := turn.currentTarget;
      SetRoster(turn.side.Opponent(), opponents[..k] + opponents[k + 1..]);
    }

    method ManageDeath(turn: TurnManager)
      requires WorldOf(this, turn).Acting() && WorldOf(this, turn).Targeting()
      modifies this, turn
      ensures WorldOf(this, turn) == Combat.ManageDeath(old(WorldOf(this, turn)))
    {
      ManageDeathCharacterGear(turn);
      ManageDeathCharacterSoul(turn);
      RemoveCharacter(turn);
    }

    /** TransferDeathMonsterPartyGear: a foreach over the monster gear, adding to the hero gear. */
    method TransferDeathMonsterPartyGear()
      modifies this
      ensures State() == old(State()).(heroGear := old(heroGear) + old(monsterGear))
    {
      var i: nat := 0;
      while i < |monsterGear|
        invariant i <= |monsterGear|
        invariant heroGear == old(heroGear) + monsterGear[..i]
        invariant State() == old(State()).(heroGear := heroGear)
      {
        heroGear := heroGear + [monsterGear[i]];
        i := i + 1;
        assert monsterGear[..i] == monsterGear[..i - 1] + [monsterGear[i - 1]];
      }
      assert monsterGear[..i] == monsterGear;
    }

    /** TransferDeathMonsterPartyItems: a foreach over the monster items, adding to the hero items. */
    method TransferDeathMonsterPartyItems()
      modifies this
      ensures State() == old(State()).(heroItems := old(heroItems) + old(monsterItems))
    {
      var i: nat := 0;
      while i < |monsterItems|
        invariant i <= |monsterItems|
        invariant heroItems == old(heroItems) + monsterItems[..i]
        invariant State() == old(State()).(heroItems := heroItems)
      {
        heroItems := heroItems + [monsterItems[i]];
        i := i + 1;
        assert monsterItems[..i] == monsterItems[..i - 1] + [monsterItems[i - 1]];
      }
      assert monsterItems[..i] == monsterItems;
    }

    /** NextMonsterParty: move wave 0 into the monster list while budget and queue last. */
    method NextMonsterParty(turn: TurnManager)
      modifies this, turn
      ensures WorldOf(this, turn) == Combat.NextMonsterParty(old(WorldOf(this, turn)))
    {
      if turn.numberBattleRounds > 0 && |waves| > 0 {
        var wave := waves[0];
        var i: nat := 0;
        while i < |wave|
          invariant i <= |wave|
          invariant monsters == old(monsters) + wave[..i]
          invariant State() == old(State()).(monsters := monsters)
          invariant turn.State() == old(turn.State())
        {
          monsters := monsters + [wave[i]];
          i := i + 1;
          assert wave[..i] == wave[..i - 1] + [wave[i - 1]];
        }
        assert wave[..i] == wave;
        waves := waves[1..];
      }
      turn.Notify(MonstersDefeated);
      turn.AdditionalBattleRoundUsed();
    }

    method ManageMonsterDefeated(turn: TurnManager)
      modifies this, turn
      ensures WorldOf(this, turn) == Combat.ManageMonsterDefeated(old(WorldOf(this, turn)))
    {
      if |monsters| == 0 {
        TransferDeathMonsterPartyGear();
        TransferDeathMonsterPartyItems();
        NextMonsterParty(turn);
      }
    }

    /** DeathManager: a dead target is handled, then the monster list is checked in any case. */
    method DeathManager(turn: TurnManager)
      requires WorldOf(this, turn).Acting()
      modifies this, turn
      ensures WorldOf(this, turn) == Combat.DeathManager(old(WorldOf(this, turn)))
    {
      if Combat.CheckDeath(WorldOf(this, turn)) {
        ManageDeath(turn);
      }
      ManageMonsterDefeated(turn);
    }

    // -------------------------------------------------------------------------------------
    // Party setup

    /** CreateHeroParty: a new hero list filled from the argument array, and the hero player. */
    method CreateHeroParty(player: PlayerKind, characters: seq<Character>)
      modifies this
      ensures State() == old(State()).(heroes := characters, heroPlayer := player)
    {
      heroes, heroPlayer := [], player;
      var i: nat := 0;
      while i < |characters|
        invariant i <= |characters|
        invariant heroes == characters[..i]
        invariant State() == old(State()).(heroes := heroes, heroPlayer := player)
      {
        heroes := heroes + [characters[i]];
        i := i + 1;
      }
      assert characters[..i] == characters;
    }

    /** CreateMonsterParty: a new monster list filled from the argument array, and the monster player. */
    method CreateMonsterParty(player: PlayerKind, characters: seq<Character>)
      modifies this
      ensures State() == old(State()).(monsters := characters, monsterPlayer := player)
    {
      monsters, monsterPlayer := [], player;
      var i: nat := 0;
      while i < |characters|
        invariant i <= |characters|
        invariant monsters == characters[..i]
        invariant State() == old(State()).(monsters := monsters, monsterPlayer := player)
      {
        monsters := monsters + [characters[i]];
        i := i + 1;
      }
      assert characters[..i] == characters;
    }

    /**
     * SetUpCharacterWithGear: one dictionary entry per character, all with the same gear.
     * Dictionary.Add throws on a key that is already present, so the characters are distinct.
     */
    static method SetUpCharacterWithGear(gear: Gear, characters: seq<Character>) returns (choices: seq<GearChoice>)
      requires DistinctIds(characters)
      ensures |choices| == |characters|
      ensures forall k :: 0 <= k < |characters| ==> choices[k] == GearChoice(characters[k], gear)
    {
      choices := [];
      var i: nat := 0;
      while i < |characters|
        invariant i <= |characters| && |choices| == i
        invariant forall k :: 0 <= k < i ==> choices[k] == GearChoice(characters[k], gear)
      {
        choices := choices + [GearChoice(characters[i], gear)];
        i := i + 1;
      }
    }

    /** RetriveCharactersWithGear: the dictionary's keys, in insertion order. */
    static method RetriveCharactersWithGear(choices: seq<GearChoice>) returns (saved: seq<Character>)
      ensures |saved| == |choices|
      ensures forall k :: 0 <= k < |choices| ==> saved[k] == choices[k].owner
    {
      saved := [];
      var i: nat := 0;
      while i < |choices|
        invariant i <= |choices| && |saved| == i
        invariant forall k :: 0 <= k < i ==> saved[k] == choices[k].owner
      {
        saved := saved + [choices[i].owner];
        i := i + 1;
      }
    }

    /** AddMonsterRound: outfit the keyed characters, queue the wave, and raise NextBattle. */
    method AddMonsterRound(turn: TurnManager, choices: seq<GearChoice>, characters: seq<Character>)
      modifies this, turn
      ensures State() == old(State()).(waves := old(waves) + [Outfitted(choices, characters)])
      ensures turn.State() == old(turn.State()).(numberBattleRounds := old(turn.numberBattleRounds) + 1)
    {
      var characterList := characters;
      var i: nat := 0;
      while i < |characterList|
        invariant i <= |characterList| == |characters|
        invariant forall k :: 0 <= k < i ==> characterList[k] == Outfitted(choices, characters)[k]
        invariant forall k :: i <= k < |characterList| ==> characterList[k] == characters[k]
      {
        var character := characterList[i];
        var g := GearFor(choices, character.id);
        if g.Some? {
          characterList := characterList[i := character.(weapon := g)];
        }
        i := i + 1;
      }
      assert characterList == Outfitted(choices, characters);
      waves := waves + [characterList];
      turn.NextBattle();
    }

    static lemma AppendThree(a: seq<seq<Character>>, b: seq<seq<Character>>)
      requires |b| == 3
      ensures a + [b[0]] + [b[1]] + [b[2]] == a + b
    {
      assert [b[0]] + [b[1]] + [b[2]] == b;
    }

    /**
     * PartySetUpSettings: three heroes for player 1, one Skeleton for player 2, and three
     * queued waves: two Skeletons sharing one Dagger, two Stone Amaroks, the Uncoded One.
     * `name` is the answer to the TrueProgrammer's name prompt; the identities 0..8 are the
     * construction order of the nine characters.
     */
    method PartySetUpSettings(turn: TurnManager, player1: PlayerKind, player2: PlayerKind, name: string)
      modifies this, turn
      ensures State() == old(State()).(heroPlayer := player1, heroes := SetupHeroes(name),
                                       monsterPlayer := player2, monsters := [NewSkeleton(3)],
                                       waves := old(waves) + SetupWaves())
      ensures turn.State() == old(turn.State()).(numberBattleRounds := old(turn.numberBattleRounds) + 3)
    {
      ghost var s0 := State();
      CreateHeroParty(player1, [NewShadowOctopoid(0), NewTrueProgrammer(1, name), NewVinFletcher(2)]);
      CreateMonsterParty(player2, [NewSkeleton(3)]);
      ghost var s1 := State();
      assert s1 == s0.(heroPlayer := player1, heroes := SetupHeroes(name),
                       monsterPlayer := player2, monsters := [NewSkeleton(3)]);
      QueueSetupWaves(turn);
    }

    /** The three AddMonsterRound calls of PartySetUpSettings: two armed Skeletons, two Stone Amaroks, the Uncoded One. */
    method QueueSetupWaves(turn: TurnManager)
      modifies this, turn
      ensures State() == old(State()).(waves := old(waves) + SetupWaves())
      ensures turn.State() == old(turn.State()).(numberBattleRounds := old(turn.numberBattleRounds) + 3)
    {
      ghost var queued, s0, t0 := waves, State(), turn.State();
      var noGear: seq<GearChoice> := [];
      var skeletons := [NewSkeleton(4), NewSkeleton(5)];
      var gearChoice := SetUpCharacterWithGear(DaggerGear(), skeletons);
      var withGear := RetriveCharactersWithGear(gearChoice);
      assert withGear == skeletons;
      assert gearChoice == [GearChoice(NewSkeleton(4), DaggerGear()), GearChoice(NewSkeleton(5), DaggerGear())];
      SetupWavesOutfitted();
      assert turn.State() == t0;
      AddMonsterRound(turn, gearChoice, withGear);
      ghost var t1 := turn.State();
      AddMonsterRound(turn, noGear, [NewStoneAmarok(6), NewStoneAmarok(7)]);
      ghost var t2 := turn.State();
      AddMonsterRound(turn, noGear, [NewUncodedOne(8)]);
      assert t1 == t0.(numberBattleRounds := t0.numberBattleRounds + 1);
      assert t2 == t0.(numberBattleRounds := t0.numberBattleRounds + 2);
      ghost var ws := SetupWaves();
      assert waves == queued + [ws[0]] + [ws[1]] + [ws[2]];
      AppendThree(queued, ws);
      assert State() == s0.(waves := queued + ws);
    }
  }

  class TurnManager {
    var round: int
    var roundCounter: int
    var numberBattleRounds: int
    var characterNumber: nat
    var side: Side
    var playerType: PlayerKind
    var selected: nat
    var currentTarget: int
    var currentAttack: AttackAction
    var currentDamage: int
    var currentProbability: Percent
    var selectedGear: int
    var consumableSelectedNumber: int
    var currentHealValue: int
    var currentTargetModifier: Option<DefensiveAttackModifier>
    var poisoned: seq<PoisonEntry>
    var sick: seq<SickEntry>
    var taunted: seq<CharacterId>
    var log: seq<Event>

    function State(): TurnState
      reads this
    {
      TurnState(round, roundCounter, numberBattleRounds, characterNumber, side, playerType, selected,
                currentTarget, currentAttack, currentDamage, currentProbability, selectedGear,
                consumableSelectedNumber, currentHealValue, currentTargetModifier, poisoned, sick,
                taunted, log)
    }

    /** The field initialisers; the event wiring of the constructor is the direct calls below. */
    constructor(party: PartyManager)
      ensures State() == InitialTurn()
    {
      round, roundCounter, numberBattleRounds, characterNumber := 0, 0, 0, 0;
      side, playerType, selected, currentTarget := Heroes, Computer, 0, 0;
      currentAttack, currentDamage, currentProbability := NothingAction(), 0, 0;
      selectedGear, consumableSelectedNumber, currentHealValue := 0, 0, 0;
      currentTargetModifier, poisoned, sick, taunted, log := None, [], [], [], [];
    }

    /** Raising an event: the log records it. */
    method Notify(e: Event)
      modifies this
      ensures State() == old(State()).(log := old(log) + [e])
    {
      log := log + [e];
    }

    method NextBattle()
      modifies this
      ensures State() == old(State()).(numberBattleRounds := old(numberBattleRounds) + 1)
    {
      numberBattleRounds := numberBattleRounds + 1;
    }

    method AdditionalBattleRoundUsed()
      modifies this
      ensures State() == old(State()).(numberBattleRounds := old(numberBattleRounds) - 1)
    {
      numberBattleRounds := numberBattleRounds - 1;
    }

    method AdvanceToNextParty()
      modifies this
      ensures State() == old(State()).(roundCounter := old(roundCounter) + 1)
    {
      roundCounter := roundCounter + 1;
    }

    /** UpdateCharacterNumber, run as the CharacterTurnEnd handler. */
    method UpdateCharacterNumber(party: PartyManager)
      modifies this
      ensures WorldOf(party, this) == Combat.UpdateCharacterNumber(old(WorldOf(party, this)))
    {
      var n := characterNumber;
      var count := |party.State().Roster(side)|;
      characterNumber := if n < count then n + n else 0;
    }

    /** CurrentPartyTurnData: bind the list CurrentParty selects and its player. */
    method CurrentPartyTurnData(party: PartyManager)
      modifies this
      ensures State() == old(State()).(side := SideOf(old(roundCounter)),
                                       playerType := CurrentPlayerType(old(WorldOf(party, this))))
    {
      side := SideOf(roundCounter);
      playerType := party.State().Player(side);
    }

    /** CurrentSelectedCharacter: an index past the end is reset to 0 before it is used. */
    method CurrentSelectedCharacter(party: PartyManager)
      requires |party.State().Roster(side)| > 0
      modifies this
      ensures characterNumber == (if old(characterNumber) < |party.State().Roster(side)| then old(characterNumber) else 0)
      ensures State() == old(State()).(characterNumber := characterNumber, selected := characterNumber)
      ensures WorldOf(party, this).Acting()
    {
      characterNumber := if characterNumber < |party.State().Roster(side)| then characterNumber else 0;
      selected := characterNumber;
    }

    /**
     * CurrentPartyTurnSetUp.  UpdateCurrentGearInventory has no separate effect here: the
     * gear inventory a turn uses is the one of the bound side.
     */
    method CurrentPartyTurnSetUp(party: PartyManager)
      requires |party.State().Roster(SideOf(roundCounter))| > 0
      modifies this
      ensures WorldOf(party, this) == Combat.CurrentPartyTurnSetUp(old(WorldOf(party, this)))
    {
      CurrentPartyTurnData(party);
      CurrentSelectedCharacter(party);
    }

    /** CurrentMenu: choice 0 and every unlisted choice skip the turn; the choice is returned. */
    method CurrentMenu(choice: int) returns (r: int)
      modifies this
      ensures r == choice
      ensures choice !in {1, 2, 3} ==> State() == old(State()).(currentAttack := NothingAction(), log := old(log) + [TurnSkipped])
      ensures choice in {1, 2, 3} ==> State() == old(State())
    {
      if !(choice == 1 || choice == 2 || choice == 3) {
        currentAttack := NothingAction();
        Notify(TurnSkipped);
      }
      r := choice;
    }

    method ManageTaunt(party: PartyManager)
      requires WorldOf(party, this).Acting()
      modifies this
      ensures WorldOf(party, this) == Combat.ManageTaunt(old(WorldOf(party, this)))
    {
      var id := WorldOf(party, this).Selected().id;
      if id !in taunted {
        taunted := taunted + [id];
        Notify(TauntMessage);
      }
    }

    /** CheckSelectedCharacterGear with TransferSelectedCharacterWeapon and ...Armor. */
    method CheckSelectedCharacterGear(party: PartyManager)
      requires WorldOf(party, this).Acting()
      modifies party
      ensures WorldOf(party, this) == Combat.CheckSelectedCharacterGear(old(WorldOf(party, this)))
    {
      var c := WorldOf(party, this).Selected();
      if c.weapon.Some? {
        party.SetGear(side, party.State().GearOf(side) + [c.weapon]);
      }
      if c.armor.Some? {
        party.SetGear(side, party.State().GearOf(side) + [c.armor]);
      }
    }

    /** ManagePartyTurns, run as the PartyTurnEnd handler. */
    method ManagePartyTurns(party: PartyManager)
      modifies party
      ensures WorldOf(party, this) == Combat.ManagePartyTurns(old(WorldOf(party, this)))
    {
      if SideOf(roundCounter) == Heroes {
        party.heroTurns := party.heroTurns + 1;
      } else {
        party.monsterTurns := party.monsterTurns + 1;
      }
    }

    method ManagePoisoned(party: PartyManager)
      modifies this, party
      ensures WorldOf(party, this) == Combat.ManagePoisoned(old(WorldOf(party, this)))
    {
      var left := party.CheckForPoisonedCharacter(this);
      if left {
        party.PoisonCharacter(this);
      }
    }

    method CheckForNextRound(party: PartyManager)
      modifies this, party
      ensures WorldOf(party, this) == Combat.CheckForNextRound(old(WorldOf(party, this)))
    {
      if party.heroTurns == party.monsterTurns {
        ManagePoisoned(party);
        round := round + 1;
      }
    }

    /** One pass of RunCurrentParty's loop body: the character at `index` takes its turn. */
    method PlayCharacter(party: PartyManager, index: nat, choose: World -> Choice)
      requires index < |WorldOf(party, this).Current()|
      modifies this, party
      ensures var w1 := BeginTurn(old(WorldOf(party, this)), index);
        WorldOf(party, this) == CharacterTurn(w1, choose(w1))
    {
      ghost var w := WorldOf(party, this);
      selected := index;
      ManageTaunt(party);
      var w1 := WorldOf(party, this);
      assert w1 == BeginTurn(w, index);
      InputManager.UserManager(party, this, choose(w1));
      party.DeathManager(this);
      UpdateCharacterNumber(party);
    }

    /**
     * RunCurrentParty: a for-loop over the bound list.  Each character is selected (the
     * turn display taunts), acts as `choose` decides, then DeathManager and the
     * CharacterTurnEnd handler run; the loop breaks as soon as a party is empty, and the
     * PartyTurnEnd handler runs last.
     */
    method RunCurrentParty(party: PartyManager, choose: World -> Choice)
      modifies this, party
      ensures WorldOf(party, this) == Combat.RunCurrentParty(old(WorldOf(party, this)), choose)
    {
      ghost var start := WorldOf(party, this);
      var index: nat := 0;
      while index < |party.State().Roster(side)|
        invariant side == start.turn.side && |WorldOf(party, this).Current()| == |start.Current()|
        invariant RunFrom(WorldOf(party, this), index, choose) == RunFrom(start, 0, choose)
        decreases |start.Current()| - index
      {
        ghost var w := WorldOf(party, this);
        PlayCharacter(party, index, choose);
        assert RunFrom(w, index, choose) ==
          if party.CheckForEmptyParties() then WorldOf(party, this) else RunFrom(WorldOf(party, this), index + 1, choose);
        if party.CheckForEmptyParties() {
          break;
        }
        index := index + 1;
      }
      ManagePartyTurns(party);
    }
  }

  // ---------------------------------------------------------------------------------------
  // The parts of InputManager the turn of a character runs through

  /** The part of InputManager that turns a selection into calls on the two managers. */
  class InputManager {

    /** RetriveAttackProperties: the attack, its damage and its probability become current. */
    static method RetriveAttackProperties(turn: TurnManager, a: AttackAction)
      modifies turn
      ensures turn.State() == old(turn.State()).(currentAttack := a, currentDamage := a.damage, currentProbability := a.probability)
    {
      turn.currentAttack := a;
      turn.currentDamage := a.damage;
      turn.currentProbability := a.probability;
    }

    /** RetriveAttackProperties on a Gear, which also becomes the character's Weapon. */
    static method RetriveGearProperties(party: PartyManager, turn: TurnManager, g: Gear)
      requires WorldOf(party, turn).Acting()
      modifies party, turn
      ensures WorldOf(party, turn) == Combat.RetriveGearProperties(old(WorldOf(party, turn)), g)
    {
      var c := WorldOf(party, turn).Selected();
      RetriveAttackProperties(turn, g.action);
      party.SetRoster(turn.side, party.State().Roster(turn.side)[turn.selected := c.(weapon := Some(g))]);
    }

    /** InputAction: a weapon attack re-equips a fresh copy of the weapon; a standard attack wins. */
    static method InputAction(party: PartyManager, turn: TurnManager, tag: AttackActions, roll: nat)
      requires WorldOf(party, turn).Acting() && roll < DamageRolls(tag)
      modifies party, turn
      ensures WorldOf(party, turn) == Combat.InputAction(old(WorldOf(party, turn)), tag, roll)
    {
      ghost var w := WorldOf(party, turn);
      var resultAction := GetAttackAction(tag, roll);
      var c := WorldOf(party, turn).Selected();
      var resultGear := GetGear(c.weapon, turn.round);
      if resultGear.Some? && ActionGearAvailable(c, tag) {
        RetriveGearProperties(party, turn, resultGear.value);
      }
      ghost var w1 := WorldOf(party, turn);
      assert w1 == if resultGear.Some? && ActionGearAvailable(c, tag) then Combat.RetriveGearProperties(w, resultGear.value) else w;
      InputActionSteps(w, tag, roll);
      if ActionAvailable(WorldOf(party, turn).Selected(), tag) {
        RetriveAttackProperties(turn, resultAction);
        assert WorldOf(party, turn) == Combat.RetriveAttackProperties(w1, resultAction);
      }
    }

    /** AskInputAction after the menu: the attack, then ChooseTarget. */
    static method AskInputAction(party: PartyManager, turn: TurnManager, tag: AttackActions, target: int, roll: nat)
      requires WorldOf(party, turn).Acting() && roll < DamageRolls(tag) && 0 <= target < |WorldOf(party, turn).Opponents()|
      modifies party, turn
      ensures WorldOf(party, turn) == Combat.AskInputAction(old(WorldOf(party, turn)), tag, target, roll)
    {
      InputAction(party, turn, tag, roll);
      turn.currentTarget := ChooseTarget(WorldOf(party, turn), target);
    }

    /** ChooseInputItem and ManageInputItem: the item's heal value, then UseConsumableItem. */
    static method ManageInputItem(party: PartyManager, turn: TurnManager, k: int)
      requires WorldOf(party, turn).Acting() && 0 <= k < |WorldOf(party, turn).CurrentItems()|
      modifies party, turn
      ensures WorldOf(party, turn) == Combat.ManageInputItem(old(WorldOf(party, turn)), k)
    {
      turn.consumableSelectedNumber := k;
      turn.currentHealValue := WorldOf(party, turn).CurrentItems()[k].Heal();
      party.UpdateCharacterHealth(turn);
    }

    /** ChooseInputGear, then CheckSelectedCharacterGear and the equip. */
    static method ManageInputGear(party: PartyManager, turn: TurnManager, k: int)
      requires WorldOf(party, turn).Acting() && 0 <= k < |WorldOf(party, turn).CurrentGear()|
      modifies party, turn
      ensures WorldOf(party, turn) == Combat.ManageInputGear(old(WorldOf(party, turn)), k)
    {
      turn.selectedGear := k;
      turn.CheckSelectedCharacterGear(party);
      party.EquipGear(turn);
    }

    /** UserManager: a Computer side goes to ComputerAction, a human one to HumanAction. */
    static method UserManager(party: PartyManager, turn: TurnManager, c: Choice)
      requires WorldOf(party, turn).Acting()
      modifies party, turn
      ensures WorldOf(party, turn) == Combat.UserManager(old(WorldOf(party, turn)), c)
    {
      if turn.playerType == Computer {
        ComputerAction(party, turn, c);
      } else {
        HumanAction(party, turn, c);
      }
    }

    /** Computer.ExecuteAction: only CurrentTarget is set; the attack it picks is discarded. */
    static method ExecuteAction(party: PartyManager, turn: TurnManager, target: int)
      requires 0 <= target < |WorldOf(party, turn).Opponents()|
      modifies turn
      ensures WorldOf(party, turn) == Combat.ExecuteAction(old(WorldOf(party, turn)), target)
    {
      turn.currentTarget := target;
    }

    /** ComputerAction: the option Computer.MenuOption returns, then its branch; option 0 does nothing. */
    static method ComputerAction(party: PartyManager, turn: TurnManager, c: Choice)
      requires WorldOf(party, turn).Acting()
      modifies party, turn
      ensures WorldOf(party, turn) == Combat.ComputerAction(old(WorldOf(party, turn)), c)
    {
      if ValidComputerChoice(WorldOf(party, turn), c) {
        match c
        case Skip =>
        case Attack(_, target, _, rolls) =>
          ExecuteAction(party, turn, target);
          party.DamageTaken(turn, rolls);
        case UseItem(k) =>
          ManageInputItem(party, turn, k);
        case Equip(k) =>
          ManageInputGear(party, turn, k);
      }
    }

    /**
     * HumanAction: the selected character carries out `c`.  A choice the character could not
     * make (an index out of range, an attack it does not have) is taken as menu choice 0.
     */
    static method HumanAction(party: PartyManager, turn: TurnManager, c: Choice)
      requires WorldOf(party, turn).Acting()
      modifies party, turn
      ensures WorldOf(party, turn) == Combat.HumanAction(old(WorldOf(party, turn)), c)
    {
      if !ValidChoice(WorldOf(party, turn), c) {
        var _ := turn.CurrentMenu(0);
      } else {
        match c
        case Skip =>
          var _ := turn.CurrentMenu(0);
        case Attack(tag, target, roll, rolls) =>
          var _ := turn.CurrentMenu(1);
          AskInputAction(party, turn, tag, target, roll);
          party.DamageTaken(turn, rolls);
        case UseItem(k) =>
          var _ := turn.CurrentMenu(2);
          ManageInputItem(party, turn, k);
        case Equip(k) =>
          var _ := turn.CurrentMenu(3);
          ManageInputGear(party, turn, k);
      }
    }
  }
}
