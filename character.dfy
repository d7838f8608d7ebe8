/**
 * Combatants (Character.cs): the abstract Character with its health predicates and the
 * concrete heroes and monsters.  A character is a value here; the identity the source gets
 * from the object reference (and its Guid) is the field `id`, which the setup hands out
 * distinct.
 */
module Characters {
  import opened Wrappers
  import opened GameObjects

  type CharacterId = nat

  /** `Math.Clamp(x, lo, hi)`, which the source only calls with lo <= hi. */
  function Clamp(x: int, lo: int, hi: int): (r: int)
    requires lo <= hi
    ensures lo <= r <= hi
    ensures lo <= x <= hi ==> r == x
    ensures x < lo ==> r == lo
    ensures x > hi ==> r == hi
  {
    if x < lo then lo else if x > hi then hi else x
  }

  /** The concrete classes (the Computer AI is not a combatant and is not modelled). */
  datatype CharacterKind =
    | TrueProgrammer | VinFletcher | MylaraAndSkorin
    | Skeleton | UncodedOne | StoneAmarok | ShadowOctopoid
  {
    /** The classes deriving from Hero; the others derive from Monsters. */
    predicate IsHero() { this == TrueProgrammer || this == VinFletcher || this == MylaraAndSkorin }
  }

  datatype Character = Character(
    id: CharacterId,
    kind: CharacterKind,
    name: string,
    maxHP: nat,
    currentHP: int,
    soulsXP: int,
    soulsValue: int,
    standardAttack: AttackActions,
    additionalStandardAttack: AttackActions,
    defensiveModifier: Option<DefensiveAttackModifier>,
    offensiveModifier: Option<OffensiveAttackModifier>,
    weapon: Option<Gear>,
    armor: Option<Gear>)
  {
    /** The current health brought into [0, MaxHP]. */
    function HealthClamp(): (hp: int)
      ensures 0 <= hp <= maxHP
      ensures 0 <= currentHP <= maxHP ==> hp == currentHP
      ensures currentHP < 0 ==> hp == 0
      ensures currentHP > maxHP ==> hp == maxHP
    {
      Clamp(currentHP, 0, maxHP)
    }

    predicate IsAlive() { currentHP > 0 }

    predicate IsDeath() { currentHP == 0 }

    predicate HealthInRange() { 0 <= currentHP <= maxHP }

    /** The character after `CurrentHP -= damage; CurrentHP = HealthClamp()`. */
    function TakeDamage(damage: int): (c: Character)
      ensures c == this.(currentHP := c.currentHP)
      ensures c.HealthInRange()
      ensures c.currentHP == Clamp(currentHP - damage, 0, maxHP)
    {
      var hit := this.(currentHP := currentHP - damage);
      hit.(currentHP := hit.HealthClamp())
    }
  }

  /** With a clamped health, a character is exactly one of alive and dead. */
  lemma AliveOrDead(c: Character)
    requires c.HealthInRange()
    ensures c.IsAlive() <==> !c.IsDeath()
    ensures c.IsDeath() <==> c.currentHP == 0
    ensures c.IsAlive() <==> c.currentHP > 0
  {
  }

  /** The field initialisers of the abstract Character. */
  function DefaultCharacter(id: CharacterId, kind: CharacterKind): (c: Character)
    ensures c.id == id && c.kind == kind && c.maxHP == 0 && c.soulsValue == 0
    ensures c.standardAttack == Nothing && c.additionalStandardAttack == Nothing
    ensures c.weapon == None && c.armor == None
    ensures c.defensiveModifier == None && c.offensiveModifier == None
  {
    Character(id, kind, "Character", 0, 0, 0, 0, Nothing, Nothing, None, None, None, None)
  }

  /** The common constructor step: set MaxHP, then `CurrentHP = MaxHP`. */
  function WithMaxHP(c: Character, maxHP: nat): Character
  {
    c.(maxHP := maxHP, currentHP := maxHP)
  }

  /** TrueProgrammer asks the user for a name; the answer is the parameter `name`. */
  function NewTrueProgrammer(id: CharacterId, name: string): Character
  {
    WithMaxHP(DefaultCharacter(id, TrueProgrammer), 25)
      .(weapon := Some(SwordGear()), name := name,
        defensiveModifier := Some(ObjectSight), standardAttack := Punch)
  }

  function NewVinFletcher(id: CharacterId): Character
  {
    WithMaxHP(DefaultCharacter(id, VinFletcher), 15)
      .(weapon := Some(VinsBowGear()), name := "Vin Fletcher", standardAttack := Punch)
  }

  function NewMylaraAndSkorin(id: CharacterId): Character
  {
    WithMaxHP(DefaultCharacter(id, MylaraAndSkorin), 10)
      .(name := "Mylara and Skorin", standardAttack := Punch)
  }

  function NewSkeleton(id: CharacterId): Character
  {
    WithMaxHP(DefaultCharacter(id, Skeleton), 5)
      .(name := "Skeleton", standardAttack := BoneCrunch, soulsXP := 1)
  }

  function NewUncodedOne(id: CharacterId): Character
  {
    WithMaxHP(DefaultCharacter(id, UncodedOne), 15)
      .(name := "UncodedOne", standardAttack := Unraveling, soulsXP := 999)
  }

  function NewStoneAmarok(id: CharacterId): Character
  {
    WithMaxHP(DefaultCharacter(id, StoneAmarok), 4)
      .(defensiveModifier := Some(StoneArmor), name := "Stone Amarok",
        standardAttack := Bite, soulsXP := 0)
  }

  function NewShadowOctopoid(id: CharacterId): Character
  {
    WithMaxHP(DefaultCharacter(id, ShadowOctopoid), 15)
      .(name := "Shadow Octopoid", standardAttack := Grapple,
        additionalStandardAttack := Whip, soulsXP := 2)
  }

  /** Construct a character of the given class; `name` is used by TrueProgrammer only. */
  function Create(kind: CharacterKind, id: CharacterId, name: string): (c: Character)
    ensures c.kind == kind && c.id == id
    ensures c.currentHP == c.maxHP > 0 && c.HealthInRange() && c.IsAlive()
    ensures c.soulsValue == 0 && c.armor == None && c.offensiveModifier == None
    ensures c.standardAttack != Nothing
    ensures kind.IsHero() ==> c.soulsXP == 0
  {
    match kind
    case TrueProgrammer => NewTrueProgrammer(id, name)
    case VinFletcher => NewVinFletcher(id)
    case MylaraAndSkorin => NewMylaraAndSkorin(id)
    case Skeleton => NewSkeleton(id)
    case UncodedOne => NewUncodedOne(id)
    case StoneAmarok => NewStoneAmarok(id)
    case ShadowOctopoid => NewShadowOctopoid(id)
  }

  /** The fixed hero stats. */
  lemma HeroStats(id: CharacterId, name: string)
    ensures var c := NewTrueProgrammer(id, name);
      c.maxHP == 25 && c.weapon == Some(SwordGear()) && c.defensiveModifier == Some(ObjectSight)
      && c.standardAttack == Punch && c.additionalStandardAttack == Nothing && c.name == name
    ensures var c := NewVinFletcher(id);
      c.maxHP == 15 && c.weapon == Some(VinsBowGear()) && c.defensiveModifier == None
      && c.standardAttack == Punch
    ensures var c := NewMylaraAndSkorin(id);
      c.maxHP == 10 && c.weapon == None && c.defensiveModifier == None && c.standardAttack == Punch
  {
  }

  /** The fixed monster stats. */
  lemma MonsterStats(id: CharacterId)
    ensures var c := NewSkeleton(id);
      c.maxHP == 5 && c.standardAttack == BoneCrunch && c.soulsXP == 1 && c.weapon == None
    ensures var c := NewStoneAmarok(id);
      c.maxHP == 4 && c.standardAttack == Bite && c.defensiveModifier == Some(StoneArmor)
      && c.soulsXP == 0
    ensures var c := NewUncodedOne(id);
      c.maxHP == 15 && c.standardAttack == Unraveling && c.soulsXP == 999
      && c.defensiveModifier == None
    ensures var c := NewShadowOctopoid(id);
      c.maxHP == 15 && c.standardAttack == Grapple && c.additionalStandardAttack == Whip
      && c.soulsXP == 2
  {
  }
}
