/**
 * The catalog of the battle game: attack actions, gear, attack modifiers and consumables.
 * Every catalog object of the source is an immutable value set up by its constructor; here
 * each constructor is a function returning that value.  The random parts of a few
 * constructors (the damage of Bone Crunch and Unraveling, the value of Binary) are an
 * explicit roll parameter whose range is the range of the source's `Random.Next`.
 */
module GameObjects {
  import opened Wrappers

  /** The tag an attack's Execute returns (the enum AttackActions). */
  datatype AttackActions =
    | Nothing | Punch | BoneCrunch | Unraveling | Slash | Stab | QuickShot
    | Bite | Grapple | Whip | Scratch | SmartRockets | CannonBall

  datatype AttackTypes = Normal | Decoding

  datatype AttackSideEffects = Steal

  datatype AttackTemporaryEffects = Poison | RotPlague

  /** A hit probability as an integer percentage: the source's double 0.5 is 50 here. */
  type Percent = p: int | 0 <= p <= 100

  /** Defensive modifiers; the constructor doubles as the Execute tag. */
  datatype DefensiveAttackModifier = StoneArmor | ObjectSight
  {
    function Name(): string
    {
      match this
      case StoneArmor => "Stone Armor"
      case ObjectSight => "Object Sight"
    }

    function Value(): (v: int)
      ensures v < 0
    {
      match this
      case StoneArmor => -1
      case ObjectSight => -2
    }
  }

  /** The only offensive modifier, Binary, with the value its constructor drew. */
  datatype OffensiveAttackModifier = Binary(value: int)

  /**
   * Binary's constructor draws its value with `Random.Next(1)`, whose only possible
   * result is 0; `roll` is that draw.
   */
  function BinaryValue(roll: nat): (v: int)
    requires roll < 1
    ensures v == 0
  {
    roll
  }

  /** An attack action with its damage, hit probability and effect tags. */
  datatype AttackAction = AttackAction(
    tag: AttackActions,
    name: string,
    attackType: AttackTypes,
    damage: int,
    probability: Percent,
    sideEffect: Option<AttackSideEffects>,
    temporaryEffect: Option<AttackTemporaryEffects>,
    isArea: bool)

  /** The defaults of the abstract AttackAction: a Normal attack without effects. */
  function Action(tag: AttackActions, name: string, damage: int, probability: Percent): (a: AttackAction)
    ensures a.tag == tag && a.damage == damage && a.probability == probability
    ensures a.attackType == Normal && a.sideEffect == None && a.temporaryEffect == None && !a.isArea
  {
    AttackAction(tag, name, Normal, damage, probability, None, None, false)
  }

  function NothingAction(): AttackAction { Action(Nothing, "Nothing", 0, 100) }

  function PunchAction(): AttackAction { Action(Punch, "Punch", 1, 100) }

  /** Bone Crunch's damage is `Random.Next(2)`. */
  function BoneCrunchAction(roll: nat): AttackAction
    requires roll < 2
  {
    Action(BoneCrunch, "Bone Crunch", roll, 100)
  }

  /** Unraveling is the Decoding attack; its damage is `Random.Next(0, 5)`. */
  function UnravelingAction(roll: nat): AttackAction
    requires roll < 5
  {
    Action(Unraveling, "Unraveling", roll, 100).(attackType := Decoding)
  }

  function BiteAction(): AttackAction { Action(Bite, "Bite", 1, 100) }

  function GrappleAction(): AttackAction
  {
    Action(Grapple, "Grapple", 2, 50).(sideEffect := Some(Steal))
  }

  function WhipAction(): AttackAction
  {
    Action(Whip, "Whip", 1, 50).(temporaryEffect := Some(Poison))
  }

  function ScratchAction(): AttackAction
  {
    Action(Scratch, "Scratch", 1, 100).(temporaryEffect := Some(RotPlague))
  }

  /** Smart Rockets is the one AreaAttack. */
  function SmartRocketsAction(): AttackAction
  {
    Action(SmartRockets, "Smart Rockets", 1, 75).(isArea := true)
  }

  /** The concrete gear classes; Binary Helm is the one Armor, the others are Weapons. */
  datatype GearKind = Sword | Dagger | VinsBow | CannonOfConsolas | BinaryHelm
  {
    predicate IsArmor() { this == BinaryHelm }
  }

  /** Gear is an attack action with defensive and offensive values and an offensive modifier. */
  datatype Gear = Gear(
    kind: GearKind,
    action: AttackAction,
    defensiveValue: int,
    offensiveValue: int,
    offensiveModifier: Option<OffensiveAttackModifier>)
  {
    predicate IsArmor() { kind.IsArmor() }

    function Execute(): AttackActions { action.tag }
  }

  function NewGear(kind: GearKind, action: AttackAction): Gear
  {
    Gear(kind, action, 0, 0, None)
  }

  function SwordGear(): Gear { NewGear(Sword, Action(Slash, "Sword", 2, 100)) }

  function DaggerGear(): Gear { NewGear(Dagger, Action(Stab, "Dagger", 1, 100)) }

  function VinsBowGear(): Gear { NewGear(VinsBow, Action(QuickShot, "Vin's Bow", 3, 50)) }

  /** The Cannon's damage is fixed when it is constructed, from the round it is constructed in. */
  function CannonOfConsolasGear(round: int): Gear
  {
    NewGear(CannonOfConsolas, Action(CannonBall, "Cannon Of Consolas", GetTurnDamage(round), 100))
  }

  /** Binary Helm keeps the default damage 0 and probability 0 and carries Binary. */
  function BinaryHelmGear(): Gear
  {
    NewGear(BinaryHelm, Action(Nothing, "Binary Helm", 0, 0))
      .(defensiveValue := 1, offensiveModifier := Some(Binary(BinaryValue(0))))
  }

  /**
   * The Cannon of Consolas damage rule: 5 on a round divisible by both 3 and 5, 2 on a
   * round divisible by exactly one of them, 1 otherwise.  (A remainder is zero under C#'s
   * truncating `%` exactly when it is zero under Dafny's Euclidean `%`.)
   */
  function GetTurnDamage(round: int): (d: int)
    ensures d in {1, 2, 5}
  {
    if round % 3 == 0 && round % 5 == 0 then 5
    else if round % 3 == 0 || round % 5 == 0 then 2
    else 1
  }

  /** A multiple of 15 is exactly a round divisible by both 3 and 5. */
  lemma {:induction false} FifteenDividesBoth(round: int)
    ensures (round % 3 == 0 && round % 5 == 0) <==> round % 15 == 0
  {
    var q, r := round / 15, round % 15;
    assert round == 15 * q + r && 0 <= r < 15;
    assert round % 3 == r % 3 by { ModThree(5 * q, r); }
    assert round % 5 == r % 5 by { ModFive(3 * q, r); }
  }

  lemma ModThree(k: int, r: int)
    ensures (3 * k + r) % 3 == r % 3
  {
  }

  lemma ModFive(k: int, r: int)
    ensures (5 * k + r) % 5 == r % 5
  {
  }

  /** The damage depends on the round only through its remainder modulo 15. */
  lemma TurnDamageEveryFifteenth(round: int)
    ensures GetTurnDamage(round) == 5 <==> round % 15 == 0
    ensures GetTurnDamage(round) == 2 <==> ((round % 3 == 0) != (round % 5 == 0))
    ensures GetTurnDamage(round) == 1 <==> (round % 3 != 0 && round % 5 != 0)
  {
    FifteenDividesBoth(round);
  }

  lemma TurnDamagePeriodic(round: int)
    ensures GetTurnDamage(round + 15) == GetTurnDamage(round)
  {
    ModThree(5, round);
    ModFive(3, round);
  }

  /** The consumables; the constructor doubles as the Execute tag (ConsumableItem). */
  datatype Consumable = HealthPotion | SimulasSoup
  {
    function Name(): string
    {
      match this
      case HealthPotion => "Health Potion"
      case SimulasSoup => "Simulas Soup"
    }

    function Heal(): int
    {
      match this
      case HealthPotion => 10
      case SimulasSoup => 999
    }
  }

  /** How many damage values a tag's constructor can draw (1: the damage is fixed). */
  function DamageRolls(tag: AttackActions): nat
  {
    match tag
    case BoneCrunch => 2
    case Unraveling => 5
    case _ => 1
  }

  /**
   * The catalog object whose Execute returns `tag`: a standard attack, or the attack of the
   * weapon whose Execute returns it.  `roll` is the damage draw of the random constructors
   * and `round` the round a Cannon is built in.
   */
  function AttackOf(tag: AttackActions, round: int, roll: nat): (a: AttackAction)
    requires roll < DamageRolls(tag)
    ensures a.tag == tag
    ensures a.sideEffect == Some(Steal) <==> tag == Grapple
    ensures a.sideEffect == None <==> tag != Grapple
    ensures a.temporaryEffect == Some(Poison) <==> tag == Whip
    ensures a.temporaryEffect == Some(RotPlague) <==> tag == Scratch
    ensures a.temporaryEffect == None <==> tag !in {Whip, Scratch}
    ensures a.isArea <==> tag == SmartRockets
    ensures a.attackType == Decoding <==> tag == Unraveling
    ensures tag == BoneCrunch ==> 0 <= a.damage <= 1
    ensures tag == Unraveling ==> 0 <= a.damage <= 4
    ensures tag == Nothing ==> a.damage == 0 && a.probability == 100
    ensures tag == CannonBall ==> a.damage == GetTurnDamage(round)
  {
    match tag
    case Nothing => NothingAction()
    case Punch => PunchAction()
    case BoneCrunch => BoneCrunchAction(roll)
    case Unraveling => UnravelingAction(roll)
    case Slash => SwordGear().action
    case Stab => DaggerGear().action
    case QuickShot => VinsBowGear().action
    case Bite => BiteAction()
    case Grapple => GrappleAction()
    case Whip => WhipAction()
    case Scratch => ScratchAction()
    case SmartRockets => SmartRocketsAction()
    case CannonBall => CannonOfConsolasGear(round).action
  }

  /** Each gear's Execute tag, and Binary Helm as the one Armor. */
  lemma GearExecuteTags(round: int)
    ensures SwordGear().Execute() == Slash
    ensures DaggerGear().Execute() == Stab
    ensures VinsBowGear().Execute() == QuickShot
    ensures CannonOfConsolasGear(round).Execute() == CannonBall
    ensures BinaryHelmGear().Execute() == Nothing
    ensures forall k: GearKind :: k.IsArmor() <==> k == BinaryHelm
  {
  }

  /** The modifier and consumable constants. */
  lemma CatalogValues()
    ensures StoneArmor.Value() == -1 && ObjectSight.Value() == -2
    ensures BinaryHelmGear().offensiveModifier == Some(Binary(0))
    ensures HealthPotion.Heal() == 10 && SimulasSoup.Heal() == 999
  {
  }
}
