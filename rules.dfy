/**
 * The battle engine of PartyManager.cs and TurnManager.cs as functions on a snapshot of the
 * two objects' state.  Each function is the effect of one source operation; the classes of
 * module Battle perform the same operations in place and are proved to agree with these
 * functions, and the lemmas below state what the operations promise.
 *
 * References the source keeps into the party lists become positions and sides here:
 * `SelectedCharacter` is a position in the acting roster, `CurrentCharacterList` (and the
 * gear and item inventories bound with it) is a side.  Randomness and user input arrive as
 * explicit values: the rolls of an attack and the `Choice` an action selector makes.
 */
module Combat {
  import opened Wrappers
  import opened GameObjects
  import opened Characters
  import opened Registry

  /** The controller object of a side (HumanPlayer or Computer); only a flag here. */
  datatype PlayerKind = Computer | HumanPlayer

  /** The C# events the engine raises for the presentation layer, logged in order. */
  datatype Event =
    | AttackSuccessful | AttackMissed | AttackInfo | ModifierApplied | SoulBonus
    | GearStolen | CharacterPoisoned | DeathOpponentGearObtained | MonstersDefeated
    | TurnSkipped | TauntMessage

  /** The fields of PartyManager (the two turn counters stand for `TurnsPlayed`). */
  datatype PartyState = PartyState(
    heroPlayer: PlayerKind,
    heroes: seq<Character>,
    monsterPlayer: PlayerKind,
    monsters: seq<Character>,
    waves: seq<seq<Character>>,
    heroGear: seq<Option<Gear>>,
    monsterGear: seq<Option<Gear>>,
    heroItems: seq<Consumable>,
    monsterItems: seq<Consumable>,
    heroTurns: int,
    monsterTurns: int)
  {
    function Roster(side: Side): seq<Character>
    {
      if side == Heroes then heroes else monsters
    }

    function GearOf(side: Side): seq<Option<Gear>>
    {
      if side == Heroes then heroGear else monsterGear
    }

    function ItemsOf(side: Side): seq<Consumable>
    {
      if side == Heroes then heroItems else monsterItems
    }

    function Player(side: Side): PlayerKind
    {
      if side == Heroes then heroPlayer else monsterPlayer
    }

    function WithRoster(side: Side, r: seq<Character>): (p: PartyState)
      ensures p.Roster(side) == r && p.Roster(side.Opponent()) == Roster(side.Opponent())
      ensures p.waves == waves && p.heroGear == heroGear && p.monsterGear == monsterGear
      ensures p.heroItems == heroItems && p.monsterItems == monsterItems
      ensures p.heroTurns == heroTurns && p.monsterTurns == monsterTurns
    {
      if side == Heroes then this.(heroes := r) else this.(monsters := r)
    }

    function WithGear(side: Side, g: seq<Option<Gear>>): (p: PartyState)
      ensures p.GearOf(side) == g && p.GearOf(side.Opponent()) == GearOf(side.Opponent())
      ensures p.heroes == heroes && p.monsters == monsters && p.waves == waves
      ensures p.heroItems == heroItems && p.monsterItems == monsterItems
      ensures p.heroTurns == heroTurns && p.monsterTurns == monsterTurns
    {
      if side == Heroes then this.(heroGear := g) else this.(monsterGear := g)
    }

    function WithItems(side: Side, s: seq<Consumable>): (p: PartyState)
      ensures p.ItemsOf(side) == s && p.ItemsOf(side.Opponent()) == ItemsOf(side.Opponent())
      ensures p.heroes == heroes && p.monsters == monsters && p.waves == waves
      ensures p.heroGear == heroGear && p.monsterGear == monsterGear
      ensures p.heroTurns == heroTurns && p.monsterTurns == monsterTurns
    {
      if side == Heroes then this.(heroItems := s) else this.(monsterItems := s)
    }

    /** IsPartyEmpty on either list (CheckForEmptyParties). */
    function EmptyParties(): (empty: bool)
      ensures empty <==> heroes == [] || monsters == []
    {
      |heroes| == 0 || |monsters| == 0
    }
  }

  /** The fields of TurnManager. */
  datatype TurnState = TurnState(
    round: int,
    roundCounter: int,
    numberBattleRounds: int,
    characterNumber: nat,
    side: Side,
    playerType: PlayerKind,
    selected: nat,
    currentTarget: int,
    currentAttack: AttackAction,
    currentDamage: int,
    currentProbability: Percent,
    selectedGear: int,
    consumableSelectedNumber: int,
    currentHealValue: int,
    currentTargetModifier: Option<DefensiveAttackModifier>,
    poisoned: seq<PoisonEntry>,
    sick: seq<SickEntry>,
    taunted: seq<CharacterId>,
    log: seq<Event>)

  datatype World = World(party: PartyState, turn: TurnState)
  {
    /** CurrentCharacterList. */
    function Current(): seq<Character> { party.Roster(turn.side) }

    /** CurrentOpponentParty: the list that is not CurrentCharacterList. */
    function Opponents(): seq<Character> { party.Roster(turn.side.Opponent()) }

    /** CurrentGearInventory. */
    function CurrentGear(): seq<Option<Gear>> { party.GearOf(turn.side) }

    /** GetCurrentItemInventory. */
    function CurrentItems(): seq<Consumable> { party.ItemsOf(turn.side) }

    predicate Acting() { turn.selected < |Current()| }

    predicate Targeting() { 0 <= turn.currentTarget < |Opponents()| }

    /** SelectedCharacter. */
    function Selected(): Character
      requires Acting()
    {
      Current()[turn.selected]
    }

    /** `CurrentOpponentParty(party)[CurrentTarget]`. */
    function Target(): Character
      requires Targeting()
    {
      Opponents()[turn.currentTarget]
    }

    function WithSelected(c: Character): (w: World)
      requires Acting()
      ensures w.turn == turn && w.Acting() && w.Selected() == c
      ensures w.Opponents() == Opponents() && |w.Current()| == |Current()|
      ensures forall k :: 0 <= k < |Current()| && k != turn.selected ==> w.Current()[k] == Current()[k]
    {
      this.(party := party.WithRoster(turn.side, Current()[turn.selected := c]))
    }

    function WithTarget(c: Character): (w: World)
      requires Targeting()
      ensures w.turn == turn && w.Targeting() && w.Target() == c
      ensures w.Current() == Current() && |w.Opponents()| == |Opponents()|
      ensures forall k :: 0 <= k < |Opponents()| && k != turn.currentTarget ==> w.Opponents()[k] == Opponents()[k]
    {
      this.(party := party.WithRoster(turn.side.Opponent(), Opponents()[turn.currentTarget := c]))
    }

    /** Raise an event: one entry at the end of the log, nothing else. */
    function Notify(e: Event): World
    {
      this.(turn := turn.(log := turn.log + [e]))
    }
  }

  /**
   * What every step of a character's turn leaves alone: the bound side, the selected
   * position, the acting roster's length, the counters and the turn tallies.
   */
  predicate Frame(w: World, r: World)
  {
    r.turn.side == w.turn.side && r.turn.selected == w.turn.selected
    && |r.Current()| == |w.Current()| && r.turn.roundCounter == w.turn.roundCounter
    && r.turn.round == w.turn.round && r.party.heroTurns == w.party.heroTurns
    && r.party.monsterTurns == w.party.monsterTurns
  }

  /** Frame, and also the target position and the opponent list's length: a pipeline step. */
  predicate Shape(w: World, r: World)
  {
    Frame(w, r) && r.turn.currentTarget == w.turn.currentTarget && |r.Opponents()| == |w.Opponents()|
  }

  // ---------------------------------------------------------------------------------------
  // Selectors of TurnManager

  /** The side `CurrentParty` selects: the hero list on an even RoundCounter. */
  function SideOf(roundCounter: int): (s: Side)
    ensures s == Heroes <==> roundCounter % 2 == 0
    ensures s == Monsters <==> roundCounter % 2 != 0
  {
    if roundCounter % 2 == 0 then Heroes else Monsters
  }

  /** Advancing RoundCounter by one hands the turn to the other side. */
  lemma SidesAlternate(roundCounter: int)
    ensures SideOf(roundCounter + 1) == SideOf(roundCounter).Opponent()
    ensures SideOf(roundCounter + 2) == SideOf(roundCounter)
  {
  }

  function CurrentParty(w: World): (r: seq<Character>)
    ensures w.turn.roundCounter % 2 == 0 ==> r == w.party.heroes
    ensures w.turn.roundCounter % 2 != 0 ==> r == w.party.monsters
  {
    w.party.Roster(SideOf(w.turn.roundCounter))
  }

  function CurrentPlayerType(w: World): (k: PlayerKind)
    ensures w.turn.roundCounter % 2 == 0 ==> k == w.party.heroPlayer
    ensures w.turn.roundCounter % 2 != 0 ==> k == w.party.monsterPlayer
  {
    w.party.Player(SideOf(w.turn.roundCounter))
  }

  /** OpponentPlayer: the controller of the side CurrentParty does not select. */
  function OpponentPlayer(w: World): (k: PlayerKind)
    ensures w.turn.roundCounter % 2 == 0 ==> k == w.party.monsterPlayer
    ensures w.turn.roundCounter % 2 != 0 ==> k == w.party.heroPlayer
  {
    w.party.Player(SideOf(w.turn.roundCounter).Opponent())
  }

  /** The opponent list is always the list that is not the current one. */
  lemma OpponentIsOtherList(w: World)
    ensures w.turn.side == Heroes ==> w.Current() == w.party.heroes && w.Opponents() == w.party.monsters
    ensures w.turn.side == Monsters ==> w.Current() == w.party.monsters && w.Opponents() == w.party.heroes
  {
  }

  function CurrentPartyName(w: World): (name: string)
    ensures name == "Hero" <==> w.turn.side == Heroes
  {
    if w.turn.side == Heroes then "Hero" else "Monster"
  }

  function OpponentPartyName(w: World): (name: string)
    ensures name == "Monster" <==> w.turn.side == Heroes
    ensures name != CurrentPartyName(w)
  {
    if CurrentPartyName(w) == "Hero" then "Monster" else "Hero"
  }

  predicate TargetHasDefensiveModifier(w: World)
    requires w.Targeting()
  {
    w.Target().defensiveModifier.Some?
  }

  predicate AttackHasSideEffect(w: World) { w.turn.currentAttack.sideEffect.Some? }

  predicate AttackHasTemporaryEffect(w: World) { w.turn.currentAttack.temporaryEffect.Some? }

  predicate CurrentTargetHasGear(w: World)
    requires w.Targeting()
  {
    w.Target().weapon.Some?
  }

  /** ClampDamage, which no code calls: a negative damage becomes 0. */
  function ClampDamage(damage: int): (d: int)
    ensures d >= 0
    ensures damage >= 0 ==> d == damage
    ensures damage < 0 ==> d == 0
  {
    if damage < 0 then 0 else damage
  }

  // ---------------------------------------------------------------------------------------
  // Counters

  function NextBattle(w: World): (r: World)
    ensures r == w.(turn := w.turn.(numberBattleRounds := w.turn.numberBattleRounds + 1))
  {
    w.(turn := w.turn.(numberBattleRounds := w.turn.numberBattleRounds + 1))
  }

  function AdditionalBattleRoundUsed(w: World): (r: World)
    ensures r == w.(turn := w.turn.(numberBattleRounds := w.turn.numberBattleRounds - 1))
  {
    w.(turn := w.turn.(numberBattleRounds := w.turn.numberBattleRounds - 1))
  }

  function AdvanceToNextParty(w: World): (r: World)
    ensures r.party == w.party
    ensures r.turn == w.turn.(roundCounter := w.turn.roundCounter + 1)
    ensures SideOf(r.turn.roundCounter) == SideOf(w.turn.roundCounter).Opponent()
  {
    w.(turn := w.turn.(roundCounter := w.turn.roundCounter + 1))
  }

  /**
   * UpdateCharacterNumber: `CharacterNumber + CharacterNumber++` reads the counter, then
   * increments it and yields the old value, so the sum stored back is twice the old value.
   */
  function NextCharacterNumber(n: nat, count: nat): nat
  {
    if n < count then n + n else 0
  }

  /** The counter starts at 0 and the doubling keeps it there: it never advances. */
  lemma CharacterNumberStaysZero(count: nat)
    ensures NextCharacterNumber(0, count) == 0
    ensures forall n: nat :: n < count ==> NextCharacterNumber(n, count) == 2 * n
    ensures forall n: nat :: n >= count ==> NextCharacterNumber(n, count) == 0
  {
  }

  function UpdateCharacterNumber(w: World): (r: World)
    ensures r.party == w.party
    ensures r.turn == w.turn.(characterNumber := NextCharacterNumber(w.turn.characterNumber, |w.Current()|))
    ensures Frame(w, r)
  {
    w.(turn := w.turn.(characterNumber := NextCharacterNumber(w.turn.characterNumber, |w.Current()|)))
  }

  // ---------------------------------------------------------------------------------------
  // The combat pipeline (DamageTaken)

  /** The random draws one attack uses, each in the range of its `Random.Next` call. */
  datatype Rolls = Rolls(hit: int, stealChance: int, stealHit: int, coin: int)

  predicate ValidRolls(r: Rolls)
  {
    0 <= r.hit < 100 && 0 <= r.stealChance < 100 && 0 <= r.stealHit < 100 && 0 <= r.coin < 2
  }

  /** ManageProbability: `Next(100) < probability * 100`, the percentage being probability * 100. */
  predicate Succeeds(percent: int, roll: int)
  {
    roll < percent
  }

  /** A certain action always lands and an action of probability 0 never does. */
  lemma SucceedsBounds(percent: Percent, roll: int)
    requires 0 <= roll < 100
    ensures percent == 100 ==> Succeeds(percent, roll)
    ensures percent == 0 ==> !Succeeds(percent, roll)
  {
  }

  /**
   * The steal roll passes `Next(0, 100)` where a probability is expected, so it succeeds on
   * any draw of at least 1: the chance is 99 in 100, whatever the second draw.
   */
  function StealSucceeds(chance: int, roll: int): (ok: bool)
    requires 0 <= chance < 100 && 0 <= roll < 100
    ensures ok <==> chance >= 1
  {
    Succeeds(chance * 100, roll)
  }

  function AttackManager(w: World, roll: int): (r: World)
    ensures Succeeds(w.turn.currentProbability, roll) ==> r == w.Notify(AttackSuccessful)
    ensures !Succeeds(w.turn.currentProbability, roll) ==> r == w.Notify(AttackMissed)
    ensures Shape(w, r) && r.party == w.party
  {
    w.Notify(if Succeeds(w.turn.currentProbability, roll) then AttackSuccessful else AttackMissed)
  }

  /** The change a target's defensive modifier makes to the damage of an attack of the given type. */
  function ModifierDelta(m: Option<DefensiveAttackModifier>, t: AttackTypes): int
  {
    match m
    case Some(StoneArmor) => -1
    case Some(ObjectSight) => if t == Decoding then -2 else 0
    case None => 0
  }

  predicate ModifierApplies(m: Option<DefensiveAttackModifier>, t: AttackTypes)
  {
    m == Some(StoneArmor) || (m == Some(ObjectSight) && t == Decoding)
  }

  /** CheckModifier and ManageModifier. */
  function ManageModifier(w: World): (r: World)
    requires w.Targeting()
    ensures r.party == w.party
    ensures var m := w.Target().defensiveModifier;
      if ModifierApplies(m, w.turn.currentAttack.attackType) then
        r.turn == w.turn.(currentTargetModifier := m,
                          currentDamage := w.turn.currentDamage + m.value.Value(),
                          log := w.turn.log + [ModifierApplied])
      else r == w
    ensures r.turn.currentDamage
      == w.turn.currentDamage + ModifierDelta(w.Target().defensiveModifier, w.turn.currentAttack.attackType)
    ensures Shape(w, r)
    ensures r.turn.currentAttack == w.turn.currentAttack
    ensures r.turn.log == w.turn.log
      + (if ModifierApplies(w.Target().defensiveModifier, w.turn.currentAttack.attackType) then [ModifierApplied] else [])
  {
    var m := w.Target().defensiveModifier;
    match m
    case Some(StoneArmor) =>
      w.(turn := w.turn.(currentTargetModifier := m, currentDamage := w.turn.currentDamage + StoneArmor.Value()))
        .Notify(ModifierApplied)
    case Some(ObjectSight) =>
      if w.turn.currentAttack.attackType == Decoding then
        w.(turn := w.turn.(currentTargetModifier := m, currentDamage := w.turn.currentDamage + ObjectSight.Value()))
          .Notify(ModifierApplied)
      else w
    case None => w
  }

  /** Stone Armor takes 1 off any attack; Object Sight takes 2 off a Decoding attack only. */
  lemma ModifierValues(t: AttackTypes)
    ensures ModifierDelta(Some(StoneArmor), t) == -1
    ensures ModifierDelta(Some(ObjectSight), t) == (if t == Decoding then -2 else 0)
    ensures ModifierDelta(None, t) == 0
  {
  }

  /** CheckModifier: ManageModifier runs only for a target with a defensive modifier, which skips only calls that would change nothing. */
  function CheckModifier(w: World): (r: World)
    requires w.Targeting()
    ensures r == ManageModifier(w)
  {
    if TargetHasDefensiveModifier(w) then ManageModifier(w) else w
  }

  /** The gear a successful steal takes: `choice == 0 && armor != null ? armor : weapon`. */
  function Stolen(target: Character, coin: int): Option<Gear>
  {
    if coin == 0 && target.armor.Some? then target.armor else target.weapon
  }

  /** StealGear: the gear goes to the inventory of the side CurrentParty selects. */
  function StealGear(w: World, g: Option<Gear>): (r: World)
    ensures r.turn == w.turn
    ensures var thief := SideOf(w.turn.roundCounter);
      r.party == w.party.WithGear(thief, w.party.GearOf(thief) + [g])
  {
    var thief := SideOf(w.turn.roundCounter);
    w.(party := w.party.WithGear(thief, w.party.GearOf(thief) + [g]))
  }

  /** RemoveGearFromTarget: the target's Weapon slot is cleared, whichever gear was taken. */
  function RemoveGearFromTarget(w: World): (r: World)
    requires w.Targeting()
    ensures r == w.WithTarget(w.Target().(weapon := None))
  {
    w.WithTarget(w.Target().(weapon := None))
  }

  predicate StealHappens(w: World, rolls: Rolls)
    requires w.Targeting() && ValidRolls(rolls)
  {
    w.turn.currentAttack.sideEffect == Some(Steal)
    && (w.Target().armor.Some? || w.Target().weapon.Some?)
    && StealSucceeds(rolls.stealChance, rolls.stealHit)
  }

  /** CheckSideEffect and ManageSideEffect. */
  function ManageSideEffect(w: World, rolls: Rolls): (r: World)
    requires w.Targeting() && ValidRolls(rolls)
    ensures !StealHappens(w, rolls) ==> r == w
    ensures StealHappens(w, rolls) ==>
      var thief := SideOf(w.turn.roundCounter);
      r.turn == w.turn.(log := w.turn.log + [GearStolen])
      && r.party.GearOf(thief) == w.party.GearOf(thief) + [Stolen(w.Target(), rolls.coin)]
      && r.party.GearOf(thief.Opponent()) == w.party.GearOf(thief.Opponent())
      && r.Current() == w.Current()
      && r.Targeting() && r.Target() == w.Target().(weapon := None)
      && |r.Opponents()| == |w.Opponents()|
      && (forall k :: 0 <= k < |w.Opponents()| && k != w.turn.currentTarget ==> r.Opponents()[k] == w.Opponents()[k])
    ensures Shape(w, r)
    ensures r.party.waves == w.party.waves && r.party.ItemsOf(Heroes) == w.party.ItemsOf(Heroes)
    ensures r.party.ItemsOf(Monsters) == w.party.ItemsOf(Monsters)
    ensures r.turn.currentAttack == w.turn.currentAttack
    ensures r.turn.log == w.turn.log + (if StealHappens(w, rolls) then [GearStolen] else [])
  {
    if StealHappens(w, rolls) then
      RemoveGearFromTarget(StealGear(w, Stolen(w.Target(), rolls.coin))).Notify(GearStolen)
    else w
  }

  /** CheckSideEffect: ManageSideEffect runs only for an attack with a side effect; the guard skips only calls that would change nothing. */
  function CheckSideEffect(w: World, rolls: Rolls): (r: World)
    requires w.Targeting() && ValidRolls(rolls)
    ensures r == ManageSideEffect(w, rolls)
  {
    if AttackHasSideEffect(w) then ManageSideEffect(w, rolls) else w
  }

  /** A steal that takes the armor still clears the weapon slot and leaves the armor equipped. */
  lemma StealOfArmorClearsWeapon(w: World, rolls: Rolls)
    requires w.Targeting() && ValidRolls(rolls) && StealHappens(w, rolls)
    requires rolls.coin == 0 && w.Target().armor.Some?
    ensures var r := ManageSideEffect(w, rolls);
      r.Target().armor == w.Target().armor && r.Target().weapon == None
      && r.party.GearOf(SideOf(w.turn.roundCounter))
        == w.party.GearOf(SideOf(w.turn.roundCounter)) + [w.Target().armor]
  {
  }

  /** With armor and no weapon, a coin of 1 makes the steal add an empty slot to the inventory. */
  lemma StealOfMissingWeapon(w: World, rolls: Rolls)
    requires w.Targeting() && ValidRolls(rolls) && StealHappens(w, rolls)
    requires rolls.coin == 1 && w.Target().armor.Some? && w.Target().weapon.None?
    ensures var r := ManageSideEffect(w, rolls);
      r.Target() == w.Target()
      && r.party.GearOf(SideOf(w.turn.roundCounter)) == w.party.GearOf(SideOf(w.turn.roundCounter)) + [None]
  {
  }

  /** CheckTemporaryEffect and ApplyTemporaryEffect: Poison registers the target for 3 turns. */
  function ApplyTemporaryEffect(w: World): (r: World)
    requires w.Targeting()
    ensures w.turn.currentAttack.temporaryEffect == Some(Poison) ==>
      r.party == w.party
      && r.turn == w.turn.(poisoned := w.turn.poisoned + [PoisonEntry(w.Target().id, w.turn.side.Opponent(), 3, 0)],
                           log := w.turn.log + [CharacterPoisoned])
    ensures w.turn.currentAttack.temporaryEffect != Some(Poison) ==> r == w
    ensures Shape(w, r)
    ensures r.turn.currentAttack == w.turn.currentAttack
    ensures r.turn.log == w.turn.log
      + (if w.turn.currentAttack.temporaryEffect == Some(Poison) then [CharacterPoisoned] else [])
  {
    if w.turn.currentAttack.temporaryEffect == Some(Poison) then
      var entry := PoisonEntry(w.Target().id, w.turn.side.Opponent(), 3, 0);
      w.(turn := w.turn.(poisoned := w.turn.poisoned + [entry])).Notify(CharacterPoisoned)
    else w
  }

  /** CheckTemporaryEffect: ApplyTemporaryEffect runs only for an attack with a temporary effect; the guard skips only calls that would change nothing. */
  function CheckTemporaryEffect(w: World): (r: World)
    requires w.Targeting()
    ensures r == ApplyTemporaryEffect(w)
  {
    if AttackHasTemporaryEffect(w) then ApplyTemporaryEffect(w) else w
  }

  /** There is no duplicate guard: poisoning the same target twice registers it twice. */
  lemma PoisonTwice(w: World)
    requires w.Targeting() && w.turn.currentAttack.temporaryEffect == Some(Poison)
    ensures var r := ApplyTemporaryEffect(ApplyTemporaryEffect(w));
      var e := PoisonEntry(w.Target().id, w.turn.side.Opponent(), 3, 0);
      r.turn.poisoned == w.turn.poisoned + [e, e]
  {
    var r1 := ApplyTemporaryEffect(w);
    assert r1.Targeting() && r1.Target() == w.Target();
  }

  /** CheckSoulValue: a charge of 3 or more buys one extra point of damage and is spent. */
  function CheckSoulValue(w: World): (r: World)
    requires w.Acting()
    ensures w.Selected().soulsValue >= 3 ==>
      r == w.WithSelected(w.Selected().(soulsValue := 0))
            .(turn := w.turn.(currentDamage := w.turn.currentDamage + 1, log := w.turn.log + [SoulBonus]))
    ensures w.Selected().soulsValue < 3 ==> r == w
    ensures Shape(w, r)
    ensures r.turn.currentAttack == w.turn.currentAttack
    ensures r.turn.log == w.turn.log + (if w.Selected().soulsValue >= 3 then [SoulBonus] else [])
  {
    if w.Selected().soulsValue >= 3 then
      var w1 := w.WithSelected(w.Selected().(soulsValue := 0));
      w1.(turn := w1.turn.(currentDamage := w1.turn.currentDamage + 1)).Notify(SoulBonus)
    else w
  }

  /** UpdateHealth: the target loses CurrentDamage, clamped into [0, MaxHP]. */
  function UpdateHealth(w: World): (r: World)
    requires w.Targeting()
    ensures r == w.WithTarget(w.Target().(currentHP := Clamp(w.Target().currentHP - w.turn.currentDamage, 0, w.Target().maxHP)))
    ensures r.Target().HealthInRange()
    ensures Shape(w, r)
  {
    w.WithTarget(w.Target().TakeDamage(w.turn.currentDamage))
  }

  /** The damage a landed attack deals after the modifier and the soul bonus. */
  function FinalDamage(w: World): int
    requires w.Acting() && w.Targeting()
  {
    w.turn.currentDamage + ModifierDelta(w.Target().defensiveModifier, w.turn.currentAttack.attackType)
    + (if w.Selected().soulsValue >= 3 then 1 else 0)
  }

  /** The events a landed attack raises, in the order of the pipeline. */
  function HitLog(w: World, rolls: Rolls): seq<Event>
    requires w.Acting() && w.Targeting() && ValidRolls(rolls)
  {
    [AttackSuccessful]
    + (if ModifierApplies(w.Target().defensiveModifier, w.turn.currentAttack.attackType) then [ModifierApplied] else [])
    + (if StealHappens(w, rolls) then [GearStolen] else [])
    + (if w.turn.currentAttack.temporaryEffect == Some(Poison) then [CharacterPoisoned] else [])
    + (if w.Selected().soulsValue >= 3 then [SoulBonus] else [])
    + [AttackInfo]
  }

  /** DamageTaken: the roll, then modifier, side effect, temporary effect, soul bonus, health. */
  function DamageTaken(w: World, rolls: Rolls): (r: World)
    requires w.Acting() && w.Targeting() && ValidRolls(rolls)
    ensures !Succeeds(w.turn.currentProbability, rolls.hit) ==> r == w.Notify(AttackMissed)
    ensures Shape(w, r)
  {
    var w0 := AttackManager(w, rolls.hit);
    if Succeeds(w.turn.currentProbability, rolls.hit) then
      var w1 := CheckModifier(w0);
      var w2 := CheckSideEffect(w1, rolls);
      var w3 := CheckTemporaryEffect(w2);
      var w4 := CheckSoulValue(w3);
      UpdateHealth(w4).Notify(AttackInfo)
    else w0
  }

  /** The damage fed to UpdateHealth: the modifier, then the soul bonus, on top of CurrentDamage. */
  lemma DamageBeforeHealth(w: World, rolls: Rolls)
    requires w.Acting() && w.Targeting() && ValidRolls(rolls)
    requires Succeeds(w.turn.currentProbability, rolls.hit)
    ensures var w4 := CheckSoulValue(ApplyTemporaryEffect(ManageSideEffect(ManageModifier(AttackManager(w, rolls.hit)), rolls)));
      w4.turn.currentDamage == FinalDamage(w)
      && (w4.Target() == w.Target() || w4.Target() == w.Target().(weapon := None))
      && (forall k :: 0 <= k < |w.Opponents()| && k != w.turn.currentTarget ==> w4.Opponents()[k] == w.Opponents()[k])
      && w4.Selected().soulsValue == (if w.Selected().soulsValue >= 3 then 0 else w.Selected().soulsValue)
  {
    var w0 := AttackManager(w, rolls.hit);
    var w1 := ManageModifier(w0);
    var w2 := ManageSideEffect(w1, rolls);
    var w3 := ApplyTemporaryEffect(w2);
    assert w1.Target() == w.Target() && w1.Selected() == w.Selected();
    assert w2.Selected() == w.Selected();
    assert w3.Target() == w2.Target() && w3.Selected() == w.Selected();
  }

  /**
   * A landed attack changes the target's health to clamp(HP - final damage) and takes at
   * most its weapon, no other opponent changes, and the attacker's charge is spent when it
   * paid for the bonus.
   */
  lemma DamageTakenHit(w: World, rolls: Rolls)
    requires w.Acting() && w.Targeting() && ValidRolls(rolls)
    requires Succeeds(w.turn.currentProbability, rolls.hit)
    ensures var r, t := DamageTaken(w, rolls), w.Target();
      r.Target().currentHP == Clamp(t.currentHP - FinalDamage(w), 0, t.maxHP)
      && r.Target() == t.(currentHP := r.Target().currentHP, weapon := r.Target().weapon)
      && (r.Target().weapon != t.weapon ==> r.Target().weapon == None)
      && (forall k :: 0 <= k < |w.Opponents()| && k != w.turn.currentTarget ==> r.Opponents()[k] == w.Opponents()[k])
      && r.Selected().soulsValue == (if w.Selected().soulsValue >= 3 then 0 else w.Selected().soulsValue)
  {
    DamageBeforeHealth(w, rolls);
  }

  /** The events of a landed attack come in the order of the pipeline. */
  lemma DamageTakenLog(w: World, rolls: Rolls)
    requires w.Acting() && w.Targeting() && ValidRolls(rolls)
    requires Succeeds(w.turn.currentProbability, rolls.hit)
    ensures DamageTaken(w, rolls).turn.log == w.turn.log + HitLog(w, rolls)
  {
    var w0 := AttackManager(w, rolls.hit);
    var w1 := ManageModifier(w0);
    var w2 := ManageSideEffect(w1, rolls);
    var w3 := ApplyTemporaryEffect(w2);
    var w4 := CheckSoulValue(w3);
    assert w1.Target() == w.Target() && w1.Selected() == w.Selected();
    assert StealHappens(w1, rolls) == StealHappens(w, rolls);
    assert w3.Selected() == w.Selected();
    var m := if ModifierApplies(w.Target().defensiveModifier, w.turn.currentAttack.attackType) then [ModifierApplied] else [];
    var st := if StealHappens(w, rolls) then [GearStolen] else [];
    var po := if w.turn.currentAttack.temporaryEffect == Some(Poison) then [CharacterPoisoned] else [];
    var so := if w.Selected().soulsValue >= 3 then [SoulBonus] else [];
    assert w1.turn.log == w.turn.log + [AttackSuccessful] + m;
    assert w2.turn.log == w1.turn.log + st;
    assert w3.turn.log == w2.turn.log + po;
    assert w4.turn.log == w3.turn.log + so;
    AppendAssoc(w.turn.log, [AttackSuccessful], m, st, po, so, [AttackInfo]);
  }

  lemma AppendAssoc(l: seq<Event>, a: seq<Event>, b: seq<Event>, c: seq<Event>, d: seq<Event>, e: seq<Event>, f: seq<Event>)
    ensures l + a + b + c + d + e + f == l + (a + b + c + d + e + f)
  {
  }

  /** A missed attack changes nothing but the log. */
  lemma DamageTakenMiss(w: World, rolls: Rolls)
    requires w.Acting() && w.Targeting() && ValidRolls(rolls)
    requires !Succeeds(w.turn.currentProbability, rolls.hit)
    ensures DamageTaken(w, rolls).party == w.party
    ensures DamageTaken(w, rolls).turn == w.turn.(log := w.turn.log + [AttackMissed])
  {
  }

  // ---------------------------------------------------------------------------------------
  // Death and the monster waves (DeathManager)

  /** CheckDeath: only a target inside the opponent list can be found dead. */
  function CheckDeath(w: World): (dead: bool)
    ensures !w.Targeting() ==> !dead
    ensures w.Targeting() ==> (dead <==> w.Target().currentHP == 0)
  {
    w.Targeting() && w.Target().IsDeath()
  }

  /** ManageDeathCharacterGear and AddDeathGearToOpponentInventory. */
  function ManageDeathCharacterGear(w: World): (r: World)
    requires w.Targeting()
    ensures CurrentTargetHasGear(w) ==>
      r == w.(party := w.party.WithGear(w.turn.side, w.CurrentGear() + [w.Target().weapon])).Notify(DeathOpponentGearObtained)
    ensures !CurrentTargetHasGear(w) ==> r == w
  {
    if CurrentTargetHasGear(w) then
      w.(party := w.party.WithGear(w.turn.side, w.CurrentGear() + [w.Target().weapon])).Notify(DeathOpponentGearObtained)
    else w
  }

  /** ManageDeathCharacterSoul: the attacker collects the fallen target's SoulsXP, when it is at least 1. */
  function ManageDeathCharacterSoul(w: World): (r: World)
    requires w.Acting() && w.Targeting()
    ensures w.Target().soulsXP >= 1 ==>
      r == w.WithSelected(w.Selected().(soulsValue := w.Selected().soulsValue + w.Target().soulsXP))
    ensures w.Target().soulsXP < 1 ==> r == w
  {
    if w.Target().soulsXP >= 1 then
      w.WithSelected(w.Selected().(soulsValue := w.Selected().soulsValue + w.Target().soulsXP))
    else w
  }

  /** RemoveCharacter: `Remove` of a list element reached by position removes that position. */
  function RemoveCharacter(w: World): (r: World)
    requires w.Targeting()
    ensures r.turn == w.turn && r.Current() == w.Current()
    ensures r.Opponents() == w.Opponents()[..w.turn.currentTarget] + w.Opponents()[w.turn.currentTarget + 1..]
    ensures |r.Opponents()| == |w.Opponents()| - 1
  {
    var t := w.turn.currentTarget;
    w.(party := w.party.WithRoster(w.turn.side.Opponent(), w.Opponents()[..t] + w.Opponents()[t + 1..]))
  }

  function ManageDeath(w: World): (r: World)
    requires w.Acting() && w.Targeting()
    ensures Frame(w, r)
    ensures r.Current() == w.Current()[w.turn.selected := r.Selected()]
    ensures r.Acting()
    ensures r.Selected() == w.Selected().(soulsValue := w.Selected().soulsValue
                                           + (if w.Target().soulsXP >= 1 then w.Target().soulsXP else 0))
    ensures r.Opponents() == w.Opponents()[..w.turn.currentTarget] + w.Opponents()[w.turn.currentTarget + 1..]
    ensures r.CurrentGear() == w.CurrentGear() + (if w.Target().weapon.Some? then [w.Target().weapon] else [])
    ensures r.party.GearOf(w.turn.side.Opponent()) == w.party.GearOf(w.turn.side.Opponent())
    ensures r.party.waves == w.party.waves
    ensures r.party.heroItems == w.party.heroItems && r.party.monsterItems == w.party.monsterItems
    ensures r.turn.numberBattleRounds == w.turn.numberBattleRounds
  {
    var w1 := ManageDeathCharacterGear(w);
    var w2 := ManageDeathCharacterSoul(w1);
    RemoveCharacter(w2)
  }

  /** TransferDeathMonsterPartyGear: every monster gear entry is appended to the hero inventory. */
  function TransferDeathMonsterPartyGear(w: World): (r: World)
    ensures r.turn == w.turn
    ensures r.party == w.party.(heroGear := w.party.heroGear + w.party.monsterGear)
  {
    w.(party := w.party.(heroGear := w.party.heroGear + w.party.monsterGear))
  }

  /** TransferDeathMonsterPartyItems: every monster item is appended to the hero inventory. */
  function TransferDeathMonsterPartyItems(w: World): (r: World)
    ensures r.turn == w.turn
    ensures r.party == w.party.(heroItems := w.party.heroItems + w.party.monsterItems)
  {
    w.(party := w.party.(heroItems := w.party.heroItems + w.party.monsterItems))
  }

  predicate WaveReleased(w: World)
  {
    w.turn.numberBattleRounds > 0 && |w.party.waves| > 0
  }

  /** NextMonsterParty: release wave 0 while budget and queue last; the budget drops in any case. */
  function NextMonsterParty(w: World): (r: World)
    ensures WaveReleased(w) ==>
      r.party == w.party.(monsters := w.party.monsters + w.party.waves[0], waves := w.party.waves[1..])
    ensures !WaveReleased(w) ==> r.party == w.party
    ensures r.turn == w.turn.(numberBattleRounds := w.turn.numberBattleRounds - 1,
                              log := w.turn.log + [MonstersDefeated])
  {
    var w1 := if WaveReleased(w) then
        w.(party := w.party.(monsters := w.party.monsters + w.party.waves[0], waves := w.party.waves[1..]))
      else w;
    AdditionalBattleRoundUsed(w1.Notify(MonstersDefeated))
  }

  /** CheckMonsterDefeat: the monster list is empty, which also ends the loop. */
  function CheckMonsterDefeat(w: World): (defeated: bool)
    ensures defeated <==> w.party.monsters == []
    ensures defeated ==> w.party.EmptyParties()
  {
    |w.party.monsters| == 0
  }

  function ManageMonsterDefeated(w: World): (r: World)
    ensures !CheckMonsterDefeat(w) ==> r == w
    ensures CheckMonsterDefeat(w) ==>
      r.party.heroGear == w.party.heroGear + w.party.monsterGear
      && r.party.heroItems == w.party.heroItems + w.party.monsterItems
      && r.party.monsterGear == w.party.monsterGear && r.party.monsterItems == w.party.monsterItems
      && r.party.heroes == w.party.heroes
      && (WaveReleased(w) ==> r.party.monsters == w.party.waves[0] && r.party.waves == w.party.waves[1..])
      && (!WaveReleased(w) ==> r.party.monsters == [] && r.party.waves == w.party.waves)
      && r.turn == w.turn.(numberBattleRounds := w.turn.numberBattleRounds - 1,
                           log := w.turn.log + [MonstersDefeated])
  {
    if CheckMonsterDefeat(w) then
      NextMonsterParty(TransferDeathMonsterPartyItems(TransferDeathMonsterPartyGear(w)))
    else w
  }

  /** DeathManager: a dead target is looted and removed, then the monster list is checked. */
  function DeathManager(w: World): (r: World)
    requires w.Acting()
    ensures Frame(w, r)
  {
    var w1 := if CheckDeath(w) then ManageDeath(w) else w;
    assert w.turn.side == Monsters ==> |w1.party.monsters| > 0;
    ManageMonsterDefeated(w1)
  }

  /** On a death the opponent list shrinks by exactly one and the loot and souls move. */
  lemma DeathLoot(w: World)
    requires w.Acting() && CheckDeath(w) && w.turn.side == Heroes && |w.Opponents()| > 1
    ensures var r := DeathManager(w);
      |r.party.monsters| == |w.party.monsters| - 1
      && r.party.heroGear == w.party.heroGear + (if w.Target().weapon.Some? then [w.Target().weapon] else [])
      && r.Selected().soulsValue == w.Selected().soulsValue + (if w.Target().soulsXP >= 1 then w.Target().soulsXP else 0)
  {
    var w1 := ManageDeath(w);
    assert !CheckMonsterDefeat(w1);
  }

  /** The last monster's death empties the list, which the wave queue then refills. */
  lemma LastMonsterReleasesWave(w: World)
    requires w.Acting() && CheckDeath(w) && w.turn.side == Heroes && |w.Opponents()| == 1
    ensures var r := DeathManager(w);
      var w1 := ManageDeath(w);
      r.party.heroGear == w1.party.heroGear + w.party.monsterGear
      && r.party.heroItems == w.party.heroItems + w.party.monsterItems
      && r.turn.numberBattleRounds == w.turn.numberBattleRounds - 1
      && (WaveReleased(w) ==> r.party.monsters == w.party.waves[0] && r.party.waves == w.party.waves[1..])
      && (!WaveReleased(w) ==> r.party.monsters == [] && r.party.waves == w.party.waves)
  {
    var w1 := ManageDeath(w);
    assert w1.party.monsters == [];
    assert WaveReleased(w1) == WaveReleased(w);
  }

  // ---------------------------------------------------------------------------------------
  // Items and gear

  /** UpdateCharacterHealth: heal with clamping, then remove the chosen item. */
  function UpdateCharacterHealth(w: World): (r: World)
    requires w.Acting()
    requires |w.CurrentItems()| > 0 ==> 0 <= w.turn.consumableSelectedNumber < |w.CurrentItems()|
    ensures Frame(w, r) && r.turn == w.turn && r.Acting()
    ensures r.Selected() == w.Selected().(currentHP := Clamp(w.Selected().currentHP + w.turn.currentHealValue, 0, w.Selected().maxHP))
    ensures r.Opponents() == w.Opponents()
    ensures forall k :: 0 <= k < |w.Current()| && k != w.turn.selected ==> r.Current()[k] == w.Current()[k]
    ensures var items, k := w.CurrentItems(), w.turn.consumableSelectedNumber;
      r.CurrentItems() == (if |items| > 0 then items[..k] + items[k + 1..] else items)
    ensures |w.CurrentItems()| > 0 ==> |r.CurrentItems()| == |w.CurrentItems()| - 1
    ensures r.party.GearOf(Heroes) == w.party.GearOf(Heroes) && r.party.GearOf(Monsters) == w.party.GearOf(Monsters)
  {
    var c := w.Selected();
    var w1 := w.WithSelected(c.(currentHP := Clamp(c.currentHP + w.turn.currentHealValue, 0, c.maxHP)));
    var items, k := w1.CurrentItems(), w.turn.consumableSelectedNumber;
    if |items| > 0 then w1.(party := w1.party.WithItems(w.turn.side, items[..k] + items[k + 1..])) else w1
  }

  /** CheckSelectedCharacterGear: the equipped gear is copied back; the slots stay filled. */
  function CheckSelectedCharacterGear(w: World): (r: World)
    requires w.Acting()
    ensures r.turn == w.turn && r.Current() == w.Current() && r.Opponents() == w.Opponents()
    ensures var c := w.Selected();
      r.CurrentGear() == w.CurrentGear() + (if c.weapon.Some? then [c.weapon] else [])
                                         + (if c.armor.Some? then [c.armor] else [])
    ensures r.party.GearOf(w.turn.side.Opponent()) == w.party.GearOf(w.turn.side.Opponent())
    ensures r.party.heroItems == w.party.heroItems && r.party.monsterItems == w.party.monsterItems
    ensures Frame(w, r)
  {
    var c := w.Selected();
    var g1 := w.CurrentGear() + (if c.weapon.Some? then [c.weapon] else []);
    var g2 := g1 + (if c.armor.Some? then [c.armor] else []);
    w.(party := w.party.WithGear(w.turn.side, g2))
  }

  predicate IsArmorSlot(g: Option<Gear>) { g.Some? && g.value.IsArmor() }

  /** EquipGear: Armor goes into the Armor slot, anything else into the Weapon slot. */
  function EquipGear(w: World): (r: World)
    requires w.Acting() && 0 <= w.turn.selectedGear < |w.CurrentGear()|
    ensures Frame(w, r) && r.turn == w.turn && r.Acting() && r.Opponents() == w.Opponents()
    ensures var g := w.CurrentGear()[w.turn.selectedGear];
      r.Selected() == if IsArmorSlot(g) then w.Selected().(armor := g) else w.Selected().(weapon := g)
    ensures forall k :: 0 <= k < |w.Current()| && k != w.turn.selected ==> r.Current()[k] == w.Current()[k]
    ensures var k := w.turn.selectedGear;
      r.CurrentGear() == w.CurrentGear()[..k] + w.CurrentGear()[k + 1..]
    ensures |r.CurrentGear()| == |w.CurrentGear()| - 1
    ensures r.party.heroItems == w.party.heroItems && r.party.monsterItems == w.party.monsterItems
  {
    var k := w.turn.selectedGear;
    var g := w.CurrentGear()[k];
    var c := w.Selected();
    var w1 := w.WithSelected(if IsArmorSlot(g) then c.(armor := g) else c.(weapon := g));
    w1.(party := w1.party.WithGear(w.turn.side, w.CurrentGear()[..k] + w.CurrentGear()[k + 1..]))
  }

  /**
   * Equipping armor over a character that holds a weapon leaves the weapon equipped and
   * adds a copy of it to the inventory: gear is duplicated.
   */
  lemma EquipArmorDuplicatesWeapon(w: World)
    requires w.Acting() && w.Selected().weapon.Some? && w.Selected().armor.None?
    requires 0 <= w.turn.selectedGear < |w.CurrentGear()| && IsArmorSlot(w.CurrentGear()[w.turn.selectedGear])
    ensures var r := EquipGear(CheckSelectedCharacterGear(w));
      r.Selected().weapon == w.Selected().weapon
      && r.CurrentGear()[|r.CurrentGear()| - 1] == w.Selected().weapon
  {
    var w1 := CheckSelectedCharacterGear(w);
    assert w1.CurrentGear()[w.turn.selectedGear] == w.CurrentGear()[w.turn.selectedGear];
  }

  /** OptionNotAvailable: the gear menu is closed while the gear inventory is empty. */
  predicate OptionNotAvailable(w: World, choice: int)
  {
    choice == 3 && |w.CurrentGear()| == 0
  }

  predicate OptionAvailable(w: World, choice: int) { !OptionNotAvailable(w, choice) }

  /** A gear choice the selector may make needs the gear menu open; with the menu closed it is a skip. */
  lemma GearOptionAvailable(w: World, k: int)
    requires w.Acting()
    ensures ValidChoice(w, Equip(k)) ==> OptionAvailable(w, 3)
    ensures OptionNotAvailable(w, 3) ==> HumanAction(w, Equip(k)) == CurrentMenu(w, 0).0
    ensures OptionNotAvailable(w, 3) ==> ComputerAction(w, Equip(k)) == w
  {
  }

  /** ActionGearAvailable: the action is what the equipped weapon executes. */
  function ActionGearAvailable(c: Character, action: AttackActions): (r: bool)
    ensures r <==> c.weapon.Some? && c.weapon.value.Execute() == action
  {
    c.weapon.Some? && action == c.weapon.value.Execute()
  }

  /** ActionAvailable: a standard attack of the character, never Nothing. */
  function ActionAvailable(c: Character, action: AttackActions): (ok: bool)
    ensures ok ==> action != Nothing
    ensures ok <==> action != Nothing && (action == c.standardAttack || action == c.additionalStandardAttack)
  {
    action != Nothing && (action == c.standardAttack || action == c.additionalStandardAttack)
  }

  /** CurrentMenu for the skip branch: 0 and every unlisted choice skip; the choice is returned. */
  function CurrentMenu(w: World, choice: int): (r: (World, int))
    ensures r.1 == choice
    ensures choice !in {1, 2, 3} ==>
      r.0 == w.(turn := w.turn.(currentAttack := NothingAction(), log := w.turn.log + [TurnSkipped]))
    ensures choice in {1, 2, 3} ==> r.0 == w
  {
    if choice == 1 || choice == 2 || choice == 3 then (w, choice)
    else (w.(turn := w.turn.(currentAttack := NothingAction())).Notify(TurnSkipped), choice)
  }

  /** CheckTaunt: the selected character has not taunted yet. */
  function CheckTaunt(w: World): (first: bool)
    requires w.Acting()
    ensures first <==> forall k :: 0 <= k < |w.turn.taunted| ==> w.turn.taunted[k] != w.Selected().id
  {
    w.Selected().id !in w.turn.taunted
  }

  /** ManageTaunt: the first time a character is selected it taunts and is remembered. */
  function ManageTaunt(w: World): (r: World)
    requires w.Acting()
    ensures r.party == w.party
    ensures CheckTaunt(w) ==>
      r.turn == w.turn.(taunted := w.turn.taunted + [w.Selected().id], log := w.turn.log + [TauntMessage])
    ensures !CheckTaunt(w) ==> r == w
    ensures w.Selected().id in r.turn.taunted
    ensures Frame(w, r)
  {
    if CheckTaunt(w) then
      w.(turn := w.turn.(taunted := w.turn.taunted + [w.Selected().id])).Notify(TauntMessage)
    else w
  }

  predicate NoDuplicates(s: seq<CharacterId>)
  {
    forall i, j :: 0 <= i < j < |s| ==> s[i] != s[j]
  }

  /** The taunted list only grows, never repeats an id, and a second taunt does nothing. */
  lemma TauntAtMostOnce(w: World)
    requires w.Acting() && NoDuplicates(w.turn.taunted)
    ensures var r := ManageTaunt(w);
      NoDuplicates(r.turn.taunted)
      && r.turn.taunted[..|w.turn.taunted|] == w.turn.taunted
      && r.Acting() && ManageTaunt(r) == r
  {
    var r := ManageTaunt(w);
    assert r.Acting() && r.Selected() == w.Selected();
  }

  // ---------------------------------------------------------------------------------------
  // One character's action (InputManager's selection is the Choice)

  /**
   * What the action selector decides for the selected character: menu choice 0 or an
   * unlisted one, an attack (menu 1) with its target and draws, an item (menu 2) or a gear
   * (menu 3) by inventory position.
   */
  datatype Choice =
    | Skip
    | Attack(tag: AttackActions, target: int, damageRoll: nat, rolls: Rolls)
    | UseItem(item: int)
    | Equip(gear: int)

  /** The copy of the equipped weapon that InputManager.GetGear builds (Binary Helm gives none). */
  function GetGear(weapon: Option<Gear>, round: int): (g: Option<Gear>)
    ensures g.Some? ==> weapon.Some? && g.value.kind == weapon.value.kind && !g.value.IsArmor()
    ensures weapon.Some? && !weapon.value.IsArmor() ==> g.Some?
  {
    match weapon
    case None => None
    case Some(gear) =>
      match gear.kind
      case Sword => Some(SwordGear())
      case Dagger => Some(DaggerGear())
      case VinsBow => Some(VinsBowGear())
      case CannonOfConsolas => Some(CannonOfConsolasGear(round))
      case BinaryHelm => None
  }

  /** InputManager.GetAttackAction: the standard attacks by tag, Nothing for every other tag. */
  function GetAttackAction(tag: AttackActions, roll: nat): (a: AttackAction)
    requires roll < DamageRolls(tag)
    ensures tag in {Punch, BoneCrunch, Unraveling, Grapple, Whip, Bite, Scratch, SmartRockets} ==> a.tag == tag
    ensures tag !in {Punch, BoneCrunch, Unraveling, Grapple, Whip, Bite, Scratch, SmartRockets} ==> a == NothingAction()
  {
    match tag
    case Punch => AttackOf(tag, 0, roll)
    case BoneCrunch => AttackOf(tag, 0, roll)
    case Unraveling => AttackOf(tag, 0, roll)
    case Grapple => AttackOf(tag, 0, roll)
    case Whip => AttackOf(tag, 0, roll)
    case Bite => AttackOf(tag, 0, roll)
    case Scratch => AttackOf(tag, 0, roll)
    case SmartRockets => AttackOf(tag, 0, roll)
    case _ => NothingAction()
  }

  /** RetriveAttackProperties: the attack, its damage and its probability become current. */
  function RetriveAttackProperties(w: World, a: AttackAction): (r: World)
    ensures r.party == w.party
    ensures r.turn == w.turn.(currentAttack := a, currentDamage := a.damage, currentProbability := a.probability)
  {
    w.(turn := w.turn.(currentAttack := a, currentDamage := a.damage, currentProbability := a.probability))
  }

  /** RetriveAttackProperties on a Gear: the gear also becomes the character's Weapon. */
  function RetriveGearProperties(w: World, g: Gear): (r: World)
    requires w.Acting()
    ensures r.turn == w.turn.(currentAttack := g.action, currentDamage := g.action.damage, currentProbability := g.action.probability)
    ensures r.Acting() && r.Selected() == w.Selected().(weapon := Some(g))
  {
    RetriveAttackProperties(w, g.action).WithSelected(w.Selected().(weapon := Some(g)))
  }

  /** InputAction: the weapon's attack (re-equipping a fresh copy), then a standard attack. */
  function InputAction(w: World, tag: AttackActions, roll: nat): (r: World)
    requires w.Acting() && roll < DamageRolls(tag)
    ensures Shape(w, r) && r.Opponents() == w.Opponents() && r.party.waves == w.party.waves
    ensures r.party.GearOf(Heroes) == w.party.GearOf(Heroes) && r.party.GearOf(Monsters) == w.party.GearOf(Monsters)
    ensures var c, gear := w.Selected(), GetGear(w.Selected().weapon, w.turn.round);
      if ActionAvailable(c, tag) then r.turn.currentAttack == GetAttackAction(tag, roll)
      else if gear.Some? && ActionGearAvailable(c, tag) then
        r.turn.currentAttack == gear.value.action && r.Selected() == c.(weapon := gear)
      else r.turn.currentAttack == w.turn.currentAttack && r == w
    ensures r.turn.currentDamage == r.turn.currentAttack.damage || r == w
  {
    var c := w.Selected();
    var gear := GetGear(c.weapon, w.turn.round);
    var w1 := if gear.Some? && ActionGearAvailable(c, tag) then RetriveGearProperties(w, gear.value) else w;
    assert w1.Selected().standardAttack == c.standardAttack;
    assert w1.Selected().additionalStandardAttack == c.additionalStandardAttack;
    if ActionAvailable(w1.Selected(), tag) then RetriveAttackProperties(w1, GetAttackAction(tag, roll)) else w1
  }

  /** InputAction as its two steps: the weapon's attack, then a standard attack. */
  lemma InputActionSteps(w: World, tag: AttackActions, roll: nat)
    requires w.Acting() && roll < DamageRolls(tag)
    ensures var gear := GetGear(w.Selected().weapon, w.turn.round);
      var w1 := if gear.Some? && ActionGearAvailable(w.Selected(), tag) then RetriveGearProperties(w, gear.value) else w;
      InputAction(w, tag, roll)
        == if ActionAvailable(w1.Selected(), tag) then RetriveAttackProperties(w1, GetAttackAction(tag, roll)) else w1
  {
  }

  /** InputManager.ChooseTarget: position 0 for an area attack or a sole opponent. */
  function ChooseTarget(w: World, choice: int): (t: int)
    requires 0 <= choice < |w.Opponents()|
    ensures 0 <= t < |w.Opponents()|
    ensures (w.turn.currentAttack.isArea || |w.Opponents()| == 1) ==> t == 0
  {
    if w.turn.currentAttack.isArea then 0 else if |w.Opponents()| == 1 then 0 else choice
  }

  /** A choice the selector may make: its indices are in range and the attack is on offer. */
  predicate ValidChoice(w: World, c: Choice)
    requires w.Acting()
  {
    match c
    case Skip => true
    case Attack(tag, target, roll, rolls) =>
      ValidRolls(rolls) && roll < DamageRolls(tag) && 0 <= target < |w.Opponents()|
      && (ActionAvailable(w.Selected(), tag) || ActionGearAvailable(w.Selected(), tag))
    case UseItem(k) => 0 <= k < |w.CurrentItems()|
    case Equip(k) => 0 <= k < |w.CurrentGear()|
  }

  /** AskInputAction: the attack the character chose, then the target ChooseTarget settles on. */
  function AskInputAction(w: World, tag: AttackActions, target: int, roll: nat): (r: World)
    requires w.Acting() && roll < DamageRolls(tag) && 0 <= target < |w.Opponents()|
    ensures Frame(w, r) && r.Targeting() && r.Opponents() == w.Opponents()
    ensures r.party.waves == w.party.waves
  {
    var w1 := InputAction(w, tag, roll);
    w1.(turn := w1.turn.(currentTarget := ChooseTarget(w1, target)))
  }

  /** ChooseInputItem and ManageInputItem: heal with the chosen item. */
  function ManageInputItem(w: World, k: int): (r: World)
    requires w.Acting() && 0 <= k < |w.CurrentItems()|
    ensures Frame(w, r)
  {
    var w1 := w.(turn := w.turn.(consumableSelectedNumber := k, currentHealValue := w.CurrentItems()[k].Heal()));
    UpdateCharacterHealth(w1)
  }

  /** ChooseInputGear, CheckSelectedCharacterGear and the equip of the chosen gear. */
  function ManageInputGear(w: World, k: int): (r: World)
    requires w.Acting() && 0 <= k < |w.CurrentGear()|
    ensures Frame(w, r) && r.Acting() && r.turn == w.turn.(selectedGear := k)
    ensures var g := w.CurrentGear()[k];
      r.Selected() == if IsArmorSlot(g) then w.Selected().(armor := g) else w.Selected().(weapon := g)
    ensures var c := w.Selected();
      var back := w.CurrentGear() + (if c.weapon.Some? then [c.weapon] else []) + (if c.armor.Some? then [c.armor] else []);
      r.CurrentGear() == back[..k] + back[k + 1..]
  {
    EquipGear(CheckSelectedCharacterGear(w.(turn := w.turn.(selectedGear := k))))
  }

  /** HumanAction: the menu, then the chosen branch; a choice the menu refuses counts as menu 0. */
  function HumanAction(w: World, c: Choice): (r: World)
    requires w.Acting()
    ensures Frame(w, r)
  {
    if !ValidChoice(w, c) then CurrentMenu(w, 0).0
    else match c
      case Skip => CurrentMenu(w, 0).0
      case Attack(tag, target, roll, rolls) => DamageTaken(AskInputAction(CurrentMenu(w, 1).0, tag, target, roll), rolls)
      case UseItem(k) => ManageInputItem(CurrentMenu(w, 2).0, k)
      case Equip(k) => ManageInputGear(CurrentMenu(w, 3).0, k)
  }

  /**
   * The options Computer.MenuOption can return: an item only when a Health Potion is in the
   * inventory and the character is under half health, gear only when it holds no weapon and
   * the gear inventory is not empty.  An attack names only the random target ExecuteAction draws.
   */
  predicate ValidComputerChoice(w: World, c: Choice)
    requires w.Acting()
  {
    match c
    case Skip => true
    case Attack(_, target, _, rolls) => ValidRolls(rolls) && 0 <= target < |w.Opponents()|
    case UseItem(k) =>
      0 <= k < |w.CurrentItems()| && HealthPotion in w.CurrentItems()
      && w.Selected().currentHP < w.Selected().maxHP / 2
    case Equip(k) => 0 <= k < |w.CurrentGear()| && w.Selected().weapon.None?
  }

  /** Computer.ExecuteAction: CurrentTarget becomes a random opponent; nothing else changes. */
  function ExecuteAction(w: World, target: int): (r: World)
    requires 0 <= target < |w.Opponents()|
    ensures r.party == w.party && r.turn == w.turn.(currentTarget := target)
    ensures r.Targeting() && r.Target() == w.Opponents()[target]
  {
    w.(turn := w.turn.(currentTarget := target))
  }

  /**
   * ComputerAction: the menu option, then its branch.  The attack branch runs the damage
   * pipeline on the attack, damage and probability the turn manager already holds: nothing
   * on this path calls InputAction or CurrentMenu.  Option 0 runs no branch.
   */
  function ComputerAction(w: World, c: Choice): (r: World)
    requires w.Acting()
    ensures Frame(w, r)
  {
    if !ValidComputerChoice(w, c) then w
    else match c
      case Skip => w
      case Attack(_, target, _, rolls) => DamageTaken(ExecuteAction(w, target), rolls)
      case UseItem(k) => ManageInputItem(w, k)
      case Equip(k) => ManageInputGear(w, k)
  }

  /** UserManager: CurrentPlayerIsComputer sends the character to ComputerAction, else HumanAction. */
  function UserManager(w: World, c: Choice): (r: World)
    requires w.Acting()
    ensures Frame(w, r)
    ensures w.turn.playerType == Computer ==> r == ComputerAction(w, c)
    ensures w.turn.playerType == HumanPlayer ==> r == HumanAction(w, c)
  {
    if w.turn.playerType == Computer then ComputerAction(w, c) else HumanAction(w, c)
  }

  /**
   * A human's skip sets the attack to Nothing, raises the skip event and changes nothing
   * else; a computer's option 0 changes nothing at all.
   */
  lemma SkipChangesOnlyAttack(w: World)
    requires w.Acting()
    ensures UserManager(w, Skip).party == w.party
    ensures w.turn.playerType == HumanPlayer ==>
      UserManager(w, Skip).turn == w.turn.(currentAttack := NothingAction(), log := w.turn.log + [TurnSkipped])
    ensures w.turn.playerType == Computer ==> UserManager(w, Skip) == w
  {
  }

  /**
   * A computer's attack keeps the attack data of the last attack made: the pipeline runs on
   * the old CurrentAttack, CurrentDamage and CurrentProbability against the drawn target.
   * With a probability of 0, the value before any attack has been chosen, it always misses.
   */
  lemma ComputerAttackKeepsAttackData(w: World, tag: AttackActions, target: int, roll: nat, rolls: Rolls)
    requires w.Acting() && w.turn.playerType == Computer
    requires ValidRolls(rolls) && 0 <= target < |w.Opponents()|
    ensures var r, w1 := UserManager(w, Attack(tag, target, roll, rolls)), w.(turn := w.turn.(currentTarget := target));
      r == DamageTaken(w1, rolls)
      && (w.turn.currentProbability == 0 ==>
            r.party == w.party && r.turn == w1.turn.(log := w.turn.log + [AttackMissed]))
  {
    var w1 := w.(turn := w.turn.(currentTarget := target));
    assert ExecuteAction(w, target) == w1;
    if w.turn.currentProbability == 0 {
      DamageTakenMiss(w1, rolls);
    }
  }

  // ---------------------------------------------------------------------------------------
  // A side's pass over its roster (RunCurrentParty) and the round boundary

  /** The head of each iteration: select the character at `index` (the display taunts). */
  function BeginTurn(w: World, index: nat): (r: World)
    requires index < |w.Current()|
    ensures r.Acting() && r.turn.selected == index && r.Selected() == w.Current()[index]
    ensures r.party == w.party && r.turn.side == w.turn.side
    ensures r.turn.roundCounter == w.turn.roundCounter && r.turn.round == w.turn.round
  {
    ManageTaunt(w.(turn := w.turn.(selected := index)))
  }

  /** One iteration's work after selection: act, DeathManager, CharacterTurnEnd. */
  function CharacterTurn(w: World, c: Choice): (r: World)
    requires w.Acting()
    ensures Frame(w, r)
  {
    UpdateCharacterNumber(DeathManager(UserManager(w, c)))
  }

  /** The loop of RunCurrentParty from position `index` on; `choose` is the action selector. */
  function RunFrom(w: World, index: nat, choose: World -> Choice): (r: World)
    ensures r.turn.side == w.turn.side && |r.Current()| == |w.Current()|
    ensures r.turn.roundCounter == w.turn.roundCounter && r.turn.round == w.turn.round
    ensures r.party.heroTurns == w.party.heroTurns && r.party.monsterTurns == w.party.monsterTurns
    decreases |w.Current()| - index
  {
    if index >= |w.Current()| then w
    else
      var w1 := BeginTurn(w, index);
      var w2 := CharacterTurn(w1, choose(w1));
      if w2.party.EmptyParties() then w2 else RunFrom(w2, index + 1, choose)
  }

  /**
   * The pass visits positions in list order: it ends on the last position, or earlier only
   * because a party became empty.
   */
  lemma {:induction false} RunFromStops(w: World, index: nat, choose: World -> Choice)
    requires index < |w.Current()|
    ensures var r := RunFrom(w, index, choose);
      index <= r.turn.selected < |r.Current()|
      && (r.turn.selected + 1 < |r.Current()| ==> r.party.EmptyParties())
    decreases |w.Current()| - index
  {
    var w2 := RunFromStep(w, index, choose);
    if !w2.party.EmptyParties() && index + 1 < |w.Current()| {
      RunFromStops(w2, index + 1, choose);
    }
  }

  /** One iteration of the pass: the character at `index` acts, and the pass goes on from there. */
  lemma RunFromStep(w: World, index: nat, choose: World -> Choice) returns (w2: World)
    requires index < |w.Current()|
    ensures w2.turn.selected == index && |w2.Current()| == |w.Current()|
    ensures RunFrom(w, index, choose) == if w2.party.EmptyParties() then w2 else RunFrom(w2, index + 1, choose)
  {
    var w1 := BeginTurn(w, index);
    w2 := CharacterTurn(w1, choose(w1));
  }

  /** ManagePartyTurns: one more turn for the side CurrentParty selects. */
  function ManagePartyTurns(w: World): (r: World)
    ensures r.turn == w.turn
    ensures SideOf(w.turn.roundCounter) == Heroes ==>
      r.party == w.party.(heroTurns := w.party.heroTurns + 1)
    ensures SideOf(w.turn.roundCounter) == Monsters ==>
      r.party == w.party.(monsterTurns := w.party.monsterTurns + 1)
  {
    if SideOf(w.turn.roundCounter) == Heroes then w.(party := w.party.(heroTurns := w.party.heroTurns + 1))
    else w.(party := w.party.(monsterTurns := w.party.monsterTurns + 1))
  }

  /**
   * RunCurrentParty: a roster pass adds one turn to the side CurrentParty selects and none to
   * the other, and leaves the side, the roster's length, RoundCounter and Round as they were.
   */
  function RunCurrentParty(w: World, choose: World -> Choice): (r: World)
    ensures r.party.heroTurns == w.party.heroTurns + (if w.turn.roundCounter % 2 == 0 then 1 else 0)
    ensures r.party.monsterTurns == w.party.monsterTurns + (if w.turn.roundCounter % 2 == 0 then 0 else 1)
    ensures r.turn.side == w.turn.side && |r.Current()| == |w.Current()|
    ensures r.turn.roundCounter == w.turn.roundCounter && r.turn.round == w.turn.round
  {
    ManagePartyTurns(RunFrom(w, 0, choose))
  }

  /** PoisonCharacter: every entry hits its character and loses a turn. */
  function PoisonCharacter(w: World): (r: World)
    ensures r.turn == w.turn.(poisoned := Ticked(w.turn.poisoned))
    ensures r.party == w.party.(heroes := PoisonRoster(w.party.heroes, Heroes, w.turn.poisoned),
                                monsters := PoisonRoster(w.party.monsters, Monsters, w.turn.poisoned))
  {
    w.(party := w.party.(heroes := PoisonRoster(w.party.heroes, Heroes, w.turn.poisoned),
                         monsters := PoisonRoster(w.party.monsters, Monsters, w.turn.poisoned)),
       turn := w.turn.(poisoned := Ticked(w.turn.poisoned)))
  }

  /** CheckForPoisonedCharacter's pruning of the registry. */
  function CheckForPoisonedCharacter(w: World): (r: World)
    ensures r.party == w.party && r.turn == w.turn.(poisoned := Prune(w.turn.poisoned))
  {
    w.(turn := w.turn.(poisoned := Prune(w.turn.poisoned)))
  }

  /**
   * ManagePoisoned: the expired entries go (as the forward prune loop leaves them); when
   * entries are left, each hits its character and loses a turn. Nothing else changes.
   */
  function ManagePoisoned(w: World): (r: World)
    ensures var live := Prune(w.turn.poisoned);
      r.turn == w.turn.(poisoned := if |live| > 0 then Ticked(live) else live)
      && r.party == if |live| > 0 then
           w.party.(heroes := PoisonRoster(w.party.heroes, Heroes, live),
                    monsters := PoisonRoster(w.party.monsters, Monsters, live))
         else w.party
  {
    var w1 := CheckForPoisonedCharacter(w);
    if |w1.turn.poisoned| > 0 then PoisonCharacter(w1) else w1
  }

  /** ManageTurnEnd: the poison half (the plague handlers are not part of this model). */
  function ManageTurnEnd(w: World): (r: World)
    ensures r.turn == w.turn.(poisoned := r.turn.poisoned)
    ensures r.party == w.party.(heroes := r.party.heroes, monsters := r.party.monsters)
    ensures |w.turn.poisoned| == 0 ==> r == w
  {
    ManagePoisoned(w)
  }

  /** CheckForNextRound: only when both sides have played as many turns does the round end. */
  function CheckForNextRound(w: World): (r: World)
    ensures w.party.heroTurns != w.party.monsterTurns ==> r == w
    ensures w.party.heroTurns == w.party.monsterTurns ==>
      var e := ManageTurnEnd(w);
      r == e.(turn := e.turn.(round := w.turn.round + 1))
    ensures r.turn.roundCounter == w.turn.roundCounter
  {
    if w.party.heroTurns == w.party.monsterTurns then
      var e := ManageTurnEnd(w);
      e.(turn := e.turn.(round := e.turn.round + 1))
    else w
  }

  /**
   * At a round boundary the registry is pruned, every character loses one point of health
   * per remaining entry on it (stopping at 0) and the round advances by one.
   */
  lemma RoundBoundary(w: World)
    requires w.party.heroTurns == w.party.monsterTurns
    requires AllInRange(w.party.heroes) && AllInRange(w.party.monsters)
    ensures var r := CheckForNextRound(w);
      var live := Prune(w.turn.poisoned);
      r.turn.round == w.turn.round + 1
      && r.turn.poisoned == (if |live| > 0 then Ticked(live) else live)
      && |r.party.heroes| == |w.party.heroes| && |r.party.monsters| == |w.party.monsters|
      && (forall k :: 0 <= k < |w.party.heroes| ==>
            var c := w.party.heroes[k];
            r.party.heroes[k] == c.(currentHP := Max0(c.currentHP - Hits(live, c.id, Heroes))))
      && (forall k :: 0 <= k < |w.party.monsters| ==>
            var c := w.party.monsters[k];
            r.party.monsters[k] == c.(currentHP := Max0(c.currentHP - Hits(live, c.id, Monsters))))
  {
    var live := Prune(w.turn.poisoned);
    PoisonRosterAt(w.party.heroes, Heroes, live);
    PoisonRosterAt(w.party.monsters, Monsters, live);
    if |live| == 0 {
      assert forall id, side :: Hits(live, id, side) == 0;
    }
  }

  // ---------------------------------------------------------------------------------------
  // Initial state and party setup

  /**
   * The field initialisers of TurnManager.  Before the first CurrentPartyTurnSetUp the
   * source's current list is a fresh empty list; no operation reads it before then, and here
   * the bound side starts as Heroes.  CurrentAttack starts as null; here it starts as Nothing.
   * The two agree on every run: only RetriveAttackProperties sets CurrentProbability above 0,
   * and it sets CurrentAttack too, so while CurrentAttack is null every attack misses and
   * the attack itself is never read.
   */
  function InitialTurn(): (t: TurnState)
    ensures t.round == 0 && t.roundCounter == 0 && t.numberBattleRounds == 0 && t.characterNumber == 0
    ensures t.poisoned == [] && t.sick == [] && t.taunted == [] && t.log == []
  {
    TurnState(0, 0, 0, 0, Heroes, Computer, 0, 0, NothingAction(), 0, 0, 0, 0, 0, None, [], [], [], [])
  }

  /** The field initialisers of PartyManager; the players are set when the parties are created. */
  function InitialParty(): (p: PartyState)
    ensures p.heroes == [] && p.monsters == [] && p.waves == []
    ensures p.heroGear == [Some(BinaryHelmGear())] && p.monsterGear == [Some(DaggerGear())]
    ensures p.heroItems == [HealthPotion, HealthPotion, HealthPotion] && p.monsterItems == [HealthPotion]
    ensures p.heroTurns == 0 && p.monsterTurns == 0
  {
    PartyState(Computer, [], Computer, [], [], [Some(BinaryHelmGear())], [Some(DaggerGear())],
               [HealthPotion, HealthPotion, HealthPotion], [HealthPotion], 0, 0)
  }

  /** An entry of the setup's Dictionary<Character, Gear>, which enumerates in insertion order. */
  datatype GearChoice = GearChoice(owner: Character, gear: Gear)

  /** ContainsKey and the indexer of that dictionary, keyed by the character's identity. */
  function GearFor(choices: seq<GearChoice>, id: CharacterId): (g: Option<Gear>)
    ensures g.Some? <==> exists k :: 0 <= k < |choices| && choices[k].owner.id == id
    ensures g.Some? ==> exists k :: 0 <= k < |choices| && choices[k].owner.id == id && choices[k].gear == g.value
    decreases |choices|
  {
    if choices == [] then None
    else if choices[0].owner.id == id then Some(choices[0].gear)
    else
      var g := GearFor(choices[1..], id);
      assert forall k :: 1 <= k < |choices| ==> choices[1..][k - 1] == choices[k];
      g
  }

  /** The wave AddMonsterRound queues: each character that is a key gets its gear as Weapon. */
  function Outfitted(choices: seq<GearChoice>, cs: seq<Character>): (r: seq<Character>)
    ensures |r| == |cs|
    ensures forall k :: 0 <= k < |cs| ==>
      r[k] == if GearFor(choices, cs[k].id).Some? then cs[k].(weapon := GearFor(choices, cs[k].id)) else cs[k]
  {
    seq(|cs|, k requires 0 <= k < |cs| =>
      if GearFor(choices, cs[k].id).Some? then cs[k].(weapon := GearFor(choices, cs[k].id)) else cs[k])
  }

  predicate DistinctIds(cs: seq<Character>)
  {
    forall i, j :: 0 <= i < j < |cs| ==> cs[i].id != cs[j].id
  }

  /** The heroes of PartySetUpSettings, with the identities in construction order. */
  function SetupHeroes(name: string): seq<Character>
  {
    [NewShadowOctopoid(0), NewTrueProgrammer(1, name), NewVinFletcher(2)]
  }

  /** The three queued waves of PartySetUpSettings. */
  function SetupWaves(): seq<seq<Character>>
  {
    [[NewSkeleton(4).(weapon := Some(DaggerGear())), NewSkeleton(5).(weapon := Some(DaggerGear()))],
     [NewStoneAmarok(6), NewStoneAmarok(7)],
     [NewUncodedOne(8)]]
  }

  /**
   * The waves AddMonsterRound builds from the setup's dictionaries: the Dagger entries arm
   * both Skeletons, the empty dictionary leaves the others as constructed.
   */
  lemma SetupWavesOutfitted()
    ensures Outfitted([GearChoice(NewSkeleton(4), DaggerGear()), GearChoice(NewSkeleton(5), DaggerGear())],
                      [NewSkeleton(4), NewSkeleton(5)]) == SetupWaves()[0]
    ensures Outfitted([], [NewStoneAmarok(6), NewStoneAmarok(7)]) == SetupWaves()[1]
    ensures Outfitted([], [NewUncodedOne(8)]) == SetupWaves()[2]
  {
  }

  /** The state Game.Run enters its loop with: the initialisers, then PartySetUpSettings. */
  function StartWorld(name: string, heroPlayer: PlayerKind, monsterPlayer: PlayerKind): (w: World)
    ensures w.party.heroPlayer == heroPlayer && w.party.monsterPlayer == monsterPlayer
    ensures |w.party.heroes| == 3 && |w.party.monsters| == 1 && |w.party.waves| == 3
    ensures w.turn.numberBattleRounds == |w.party.waves| && w.turn.roundCounter == 0 && w.turn.round == 0
    ensures w.turn.poisoned == [] && w.turn.log == [] && w.party.heroTurns == 0 && w.party.monsterTurns == 0
  {
    World(InitialParty().(heroPlayer := heroPlayer, heroes := SetupHeroes(name),
                          monsterPlayer := monsterPlayer, monsters := [NewSkeleton(3)], waves := SetupWaves()),
          InitialTurn().(numberBattleRounds := 3))
  }

  /**
   * The battle starts with three heroes against one Skeleton, three waves queued against a
   * budget of 3, every combatant at full health, all identities distinct.
   */
  lemma StartWorldFacts(name: string, heroPlayer: PlayerKind, monsterPlayer: PlayerKind)
    ensures var w := StartWorld(name, heroPlayer, monsterPlayer);
      |w.party.heroes| == 3 && |w.party.monsters| == 1 && |w.party.waves| == 3
      && w.turn.numberBattleRounds == |w.party.waves|
      && !w.party.EmptyParties()
      && AllInRange(w.party.heroes) && AllInRange(w.party.monsters)
      && DistinctIds(w.party.heroes + w.party.monsters + w.party.waves[0] + w.party.waves[1] + w.party.waves[2])
      && (forall k :: 0 <= k < 3 ==> w.party.heroes[k].currentHP == w.party.heroes[k].maxHP > 0)
      && w.party.monsters[0].kind == Skeleton
  {
    var w := StartWorld(name, heroPlayer, monsterPlayer);
    var all := w.party.heroes + w.party.monsters + w.party.waves[0] + w.party.waves[1] + w.party.waves[2];
    assert forall k :: 0 <= k < |all| ==> all[k].id == k;
  }

  // ---------------------------------------------------------------------------------------
  // Game.Run

  /** CurrentPartyTurnSetUp: bind the side, its player and inventories, and select a character. */
  function CurrentPartyTurnSetUp(w: World): (r: World)
    requires |w.party.Roster(SideOf(w.turn.roundCounter))| > 0
    ensures r.party == w.party
    ensures r.turn.side == SideOf(w.turn.roundCounter) && r.turn.playerType == CurrentPlayerType(w)
    ensures r.Acting() && r.Current() == CurrentParty(w)
    ensures w.turn.characterNumber < |CurrentParty(w)| ==> r.turn.selected == w.turn.characterNumber
    ensures w.turn.characterNumber >= |CurrentParty(w)| ==> r.turn.selected == 0
    ensures r.turn.roundCounter == w.turn.roundCounter && r.turn.round == w.turn.round
  {
    var side := SideOf(w.turn.roundCounter);
    var count := |w.party.Roster(side)|;
    var n := if w.turn.characterNumber < count then w.turn.characterNumber else 0;
    w.(turn := w.turn.(side := side, playerType := w.party.Player(side), characterNumber := n, selected := n))
  }

  /** One iteration of the loop of Game.Run. */
  function Iteration(w: World, choose: World -> Choice): (r: World)
    requires !w.party.EmptyParties()
    ensures r.turn.roundCounter == w.turn.roundCounter + 1
  {
    var w1 := CurrentPartyTurnSetUp(w);
    AdvanceToNextParty(CheckForNextRound(RunCurrentParty(w1, choose)))
  }

  /** One pass of Run's loop as a value: Iteration, or nothing once a party is empty. */
  function Step(choose: World -> Choice): World -> World
  {
    (w: World) => if w.party.EmptyParties() then w else Iteration(w, choose)
  }

  /** Each pass from a world with both parties present advances RoundCounter by one. */
  ghost predicate Counts(step: World -> World)
  {
    forall w: World {:trigger step(w)} :: !w.party.EmptyParties() ==>
      step(w).turn.roundCounter == w.turn.roundCounter + 1
  }

  lemma StepCounts(choose: World -> Choice)
    ensures Counts(Step(choose))
  {
    forall w: World | !w.party.EmptyParties()
      ensures Step(choose)(w).turn.roundCounter == w.turn.roundCounter + 1
    {
      assert Step(choose)(w) == Iteration(w, choose);
    }
  }

  /** A loop of at most `fuel` passes of `step` that stops as soon as a party is empty. */
  function Repeat(w: World, step: World -> World, fuel: nat): (r: World)
    ensures w.party.EmptyParties() || fuel == 0 ==> r == w
    decreases fuel
  {
    if fuel == 0 || w.party.EmptyParties() then w else Repeat(step(w), step, fuel - 1)
  }

  /**
   * A loop whose passes each advance RoundCounter by one ends with RoundCounter advanced
   * by the number of passes: all of `fuel` unless a party became empty first.
   */
  lemma {:induction false} RepeatCounts(w: World, step: World -> World, fuel: nat)
    requires Counts(step)
    ensures var r := Repeat(w, step, fuel);
      (!r.party.EmptyParties() ==> r.turn.roundCounter == w.turn.roundCounter + fuel)
      && w.turn.roundCounter <= r.turn.roundCounter <= w.turn.roundCounter + fuel
    decreases fuel
  {
    if fuel > 0 && !w.party.EmptyParties() {
      RepeatCounts(step(w), step, fuel - 1);
    }
  }

  /** The loop of Game.Run, for at most `fuel` iterations. */
  function RunLoop(w: World, choose: World -> Choice, fuel: nat): (r: World)
    ensures w.party.EmptyParties() || fuel == 0 ==> r == w
  {
    Repeat(w, Step(choose), fuel)
  }

  /** With both parties present and budget left, the loop runs one Iteration and goes on. */
  lemma RunLoopStep(w: World, choose: World -> Choice, fuel: nat)
    requires !w.party.EmptyParties() && fuel > 0
    ensures RunLoop(w, choose, fuel) == RunLoop(Iteration(w, choose), choose, fuel - 1)
  {
    assert Step(choose)(w) == Iteration(w, choose);
  }

  /**
   * The loop stops as soon as a party is empty; otherwise it has run all `fuel` iterations,
   * each advancing RoundCounter by exactly one.
   */
  lemma RunLoopCounts(w: World, choose: World -> Choice, fuel: nat)
    ensures var r := RunLoop(w, choose, fuel);
      (!r.party.EmptyParties() ==> r.turn.roundCounter == w.turn.roundCounter + fuel)
      && w.turn.roundCounter <= r.turn.roundCounter <= w.turn.roundCounter + fuel
  {
    StepCounts(choose);
    RepeatCounts(w, Step(choose), fuel);
  }

  /** The worlds a run of the loop passes through: each is the pass applied to the one before. */
  ghost predicate IsTrace(t: seq<World>, step: World -> World)
    decreases |t|
  {
    |t| > 0
    && (|t| > 1 ==>
          IsTrace(t[..|t| - 1], step)
          && !t[|t| - 2].party.EmptyParties()
          && t[|t| - 1] == step(t[|t| - 2]))
  }

  /** A trace grows by one pass from a world with both parties present. */
  lemma TraceSnoc(t: seq<World>, step: World -> World, w: World)
    requires IsTrace(t, step) && !t[|t| - 1].party.EmptyParties() && w == step(t[|t| - 1])
    ensures IsTrace(t + [w], step)
  {
    assert (t + [w])[..|t|] == t;
  }

  /**
   * Running the loop from the first world of a trace is running it from the last one with
   * the budget the trace used up taken off.
   */
  lemma {:induction false} TraceRepeat(t: seq<World>, step: World -> World, fuel: nat)
    requires IsTrace(t, step) && |t| - 1 <= fuel
    ensures Repeat(t[0], step, fuel) == Repeat(t[|t| - 1], step, fuel - (|t| - 1))
    decreases |t|
  {
    if |t| > 1 {
      var p := t[..|t| - 1];
      TraceRepeat(p, step, fuel);
      assert p[0] == t[0] && p[|p| - 1] == t[|t| - 2];
    }
  }
}
