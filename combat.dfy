/**
 * Pure rules of a fight: the enemy intents and their roll, the damage an enemy
 * turn deals, and the damage of a player strike (src/composables/useGameState.ts).
 * Every `Math.random()` result is a parameter `roll` in [0, 1).
 */
module Combat {
  import opened Common
  import opened GameTypes

  function Multiplier(k: IntentKind): real {
    match k
    case Strike => 1.0
    case Heavy => 1.4
    case Pierce => 1.2
    case Drain => 0.9
  }

  function ThreatGain(k: IntentKind): real {
    match k
    case Strike => 3.0
    case Heavy => 5.0
    case Pierce => 4.0
    case Drain => 4.0
  }

  /** Energy a drain intent takes; the other intents carry no drain entry. */
  function DrainAmount(k: IntentKind): real {
    if k == Drain then 0.8 else 0.0
  }

  const Intents: seq<IntentKind> := [Strike, Heavy, Pierce, Drain]

  /**
   * The sampled intent position: the roll scaled to the four intents, shifted up by
   * 0.3 per bias step (half the difficulty, at most 3), capped at the last intent.
   */
  function IntentIndex(difficulty: nat, roll: real): (index: int)
    requires 0.0 <= roll < 1.0
    ensures 0 <= index < |Intents|
    ensures (roll * 4.0).Floor <= index
    ensures difficulty < 2 ==> index == (roll * 4.0).Floor
  {
    var bias := if 3 <= difficulty / 2 then 3 else difficulty / 2;
    var scaled := (roll * 4.0 + bias as real * 0.3).Floor;
    if 3 <= scaled then 3 else scaled
  }

  /** Harder nodes never roll a lower intent position from the same roll. */
  lemma IntentIndexMonotone(d1: nat, d2: nat, roll: real)
    requires d1 <= d2 && 0.0 <= roll < 1.0
    ensures IntentIndex(d1, roll) <= IntentIndex(d2, roll)
  {
    var b1 := if 3 <= d1 / 2 then 3 else d1 / 2;
    var b2 := if 3 <= d2 / 2 then 3 else d2 / 2;
    assert b1 <= b2;
    FloorMonotone(roll * 4.0 + b1 as real * 0.3, roll * 4.0 + b2 as real * 0.3);
  }

  lemma FloorMonotone(x: real, y: real)
    requires x <= y
    ensures x.Floor <= y.Floor
  {
  }

  /**
   * The intent an enemy prepares: below difficulty 2 each intent takes a quarter of
   * the roll; the top quarter of the roll always prepares a drain.
   */
  function RollEnemyIntent(difficulty: nat, roll: real): (k: IntentKind)
    requires 0.0 <= roll < 1.0
    ensures difficulty < 2 ==> k == Intents[(roll * 4.0).Floor]
    ensures 0.75 <= roll ==> k == Drain
  {
    Intents[IntentIndex(difficulty, roll)]
  }

  /**
   * Enemy damage before the guard: attack times the intent's multiplier, less the
   * full defense (30% of it against a piercing intent), but at least 1.
   */
  function MitigatedDamage(attack: real, k: IntentKind, defense: real): (d: real)
    ensures d >= 1.0
  {
    var raw := attack * Multiplier(k);
    if k != Pierce then Max(1.0, raw - defense)
    else Max(1.0, raw - defense * 0.3)
  }

  /** With non-negative defense the mitigation lies between the raw blow less the defense and the raw blow. */
  lemma MitigatedDamageBounds(attack: real, k: IntentKind, defense: real)
    requires 0.0 <= defense
    ensures MitigatedDamage(attack, k, defense) <= Max(1.0, attack * Multiplier(k))
    ensures MitigatedDamage(attack, k, defense) >= attack * Multiplier(k) - defense
  {
  }

  function GuardFactor(guarded: bool): real { if guarded then 0.55 else 1.0 }

  /** The damage dealt: the guarded amount rounded down, never below 1. */
  function FinalDamage(mitigated: real, guarded: bool): (n: int)
    ensures n >= 1
  {
    var damage := if guarded then mitigated * 0.55 else mitigated;
    var floored := damage.Floor;
    if 1 <= floored then floored else 1
  }

  /** The damage dealt is the guarded amount rounded down, or 1 when that is below 1. */
  lemma FinalDamageBounds(mitigated: real, guarded: bool)
    ensures var n := FinalDamage(mitigated, guarded);
            n as real <= Max(1.0, mitigated * GuardFactor(guarded)) < n as real + 1.0
  {
  }

  /** A raised guard never lets more damage through. */
  lemma GuardNeverHurts(mitigated: real)
    requires mitigated >= 1.0
    ensures FinalDamage(mitigated, true) <= FinalDamage(mitigated, false)
  {
    FloorMonotone(mitigated * 0.55, mitigated);
  }

  datatype Hit = Hit(damage: int, isCrit: bool)

  function CritChance(level: int): real { 0.1 + level as real * 0.02 }
  function FocusBonus(focused: bool): real { if focused then 1.35 else 1.0 }
  function CritFactor(isCrit: bool): real { if isCrit then 1.8 else 1.0 }

  /** A player strike: a crit when the roll falls under the level's crit chance; damage rounded down. */
  function StrikeDamage(base: real, focused: bool, level: int, critRoll: real): (h: Hit)
    ensures h.isCrit <==> critRoll < CritChance(level)
    ensures 0.0 <= base ==> 0 <= h.damage
  {
    var isCrit := critRoll < CritChance(level);
    var scaled := base * FocusBonus(focused) * CritFactor(isCrit);
    assert 0.0 <= base ==> 0.0 <= scaled;
    Hit(scaled.Floor, isCrit)
  }

  /** The strike's damage is the focused, possibly critical, base damage rounded down. */
  lemma StrikeDamageBounds(base: real, focused: bool, level: int, critRoll: real)
    ensures var h := StrikeDamage(base, focused, level, critRoll);
            h.damage as real <= base * FocusBonus(focused) * CritFactor(h.isCrit) < h.damage as real + 1.0
  {
  }

  /** Focus never weakens a strike of non-negative base damage. */
  lemma FocusNeverWeakens(base: real, level: int, critRoll: real)
    requires 0.0 <= base
    ensures StrikeDamage(base, false, level, critRoll).damage <= StrikeDamage(base, true, level, critRoll).damage
  {
    var c := CritFactor(critRoll < CritChance(level));
    assert base * 1.0 * c <= base * 1.35 * c;
    FloorMonotone(base * 1.0 * c, base * 1.35 * c);
  }

  /** The random bonus of a plain attack: a whole number from 0 to 4. */
  function AttackBonus(roll: real): (b: int)
    requires 0.0 <= roll < 1.0
    ensures 0 <= b <= 4
  {
    (roll * 5.0).Floor
  }
}
