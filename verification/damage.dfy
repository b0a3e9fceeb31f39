/** The damage formula of `Combat::calculateDamage`: the classic turn-based RPG
    formula ((((2A/5+2)*B*C/D)/50+2)*X*Y/10)*Z/255, evaluated as a fixed chain
    of floored divisions. */
module Damage {
  import opened Failures

  /** Same-type attack bonus X; there are no types yet, so it is always 1. */
  const SameTypeBonus := 1
  /** Type modifier Y in tenths; 10 is the neutral modifier, later divided by 10. */
  const TypeModifier := 10
  /** Closed range of the variance factor Z drawn from the randomizer. */
  const VarianceMin := 217
  const VarianceMax := 255

  /** `floor($a / $d)` on integers: the greatest q with q <= a/d. */
  function FloorDiv(a: int, d: int): (q: int)
    requires d != 0
    ensures d > 0 ==> d * q <= a < d * q + d
    ensures d < 0 ==> d * q >= a > d * q + d
  {
    if d > 0 then a / d else (-a) / (-d)
  }

  /** `floor(2 * A / 5 + 2)`: the level term. */
  function LevelTerm(level: int): int {
    FloorDiv(2 * level, 5) + 2
  }

  /** Step three of the chain: `floor(floor(LevelTerm * B * C / D) / 50) + 2`,
      the damage before bonus, modifier and variance. */
  function BaseDamage(level: int, attack: int, power: int, defence: int): int
    requires defence != 0
  {
    FloorDiv(FloorDiv(LevelTerm(level) * attack * power, defence), 50) + 2
  }

  /** The complete chain for a variance factor `variance`. */
  function Damage(level: int, attack: int, power: int, defence: int, variance: int): int
    requires defence != 0
  {
    var modified := FloorDiv(BaseDamage(level, attack, power, defence) * SameTypeBonus * TypeModifier, 10);
    FloorDiv(modified * variance, 255)
  }

  /** `calculateDamage`: the formula, or the division-by-zero error PHP raises
      when the defender's defence is 0. */
  function CalculateDamage(level: int, attack: int, power: int, defence: int, variance: int): (r: Result<int>)
    ensures r.Err? <==> defence == 0
    ensures r.Err? ==> r.error == DivisionByZero
    ensures r.Ok? ==> r.value == FloorDiv(BaseDamage(level, attack, power, defence) * variance, 255)
    ensures r.Ok? && level >= 0 && attack >= 0 && power >= 0 && defence > 0
            && VarianceMin <= variance <= VarianceMax
            ==> 1 <= r.value <= BaseDamage(level, attack, power, defence)
  {
    if defence == 0 then Err(DivisionByZero)
    else
      NeutralModifiers(level, attack, power, defence, variance);
      if level >= 0 && attack >= 0 && power >= 0 && defence > 0 && VarianceMin <= variance <= VarianceMax then
        DamageBounds(level, attack, power, defence, variance);
        Ok(Damage(level, attack, power, defence, variance))
      else
        Ok(Damage(level, attack, power, defence, variance))
  }

  /** The bonus and modifier stubs are no-ops: only the variance scales the base. */
  lemma NeutralModifiers(level: int, attack: int, power: int, defence: int, variance: int)
    requires defence != 0
    ensures Damage(level, attack, power, defence, variance)
            == FloorDiv(BaseDamage(level, attack, power, defence) * variance, 255)
  {
    var b := BaseDamage(level, attack, power, defence);
    assert b * SameTypeBonus * TypeModifier == 10 * b;
    assert FloorDiv(10 * b, 10) == b;
  }

  /** With non-negative stats the base damage is at least 2. */
  lemma BaseDamageAtLeastTwo(level: int, attack: int, power: int, defence: int)
    requires level >= 0 && attack >= 0 && power >= 0 && defence > 0
    ensures BaseDamage(level, attack, power, defence) >= 2
  {
    var l := LevelTerm(level);
    assert l >= 2;
    var p := l * attack * power;
    assert p >= 0 by {
      assert l * attack >= 0;
    }
    assert FloorDiv(p, defence) >= 0;
  }

  /** Multiplying by a factor in [217, 255] and flooring by 255 keeps at least
      1 and at most the whole of a base of 2 or more. */
  lemma ScaleBounds(b: int, variance: int)
    requires b >= 2
    requires VarianceMin <= variance <= VarianceMax
    ensures 1 <= FloorDiv(b * variance, 255) <= b
  {
    assert b * variance >= 2 * variance >= 434;
    assert b * variance <= b * 255;
  }

  /** Non-negative stats, positive defence and an in-range variance factor give
      a damage of at least 1 and at most the base damage. */
  lemma DamageBounds(level: int, attack: int, power: int, defence: int, variance: int)
    requires level >= 0 && attack >= 0 && power >= 0 && defence > 0
    requires VarianceMin <= variance <= VarianceMax
    ensures 1 <= Damage(level, attack, power, defence, variance) <= BaseDamage(level, attack, power, defence)
  {
    BaseDamageAtLeastTwo(level, attack, power, defence);
    NeutralModifiers(level, attack, power, defence, variance);
    ScaleBounds(BaseDamage(level, attack, power, defence), variance);
  }

  /** At the top of the variance range the damage is exactly the base damage. */
  lemma MaxVarianceIsBase(level: int, attack: int, power: int, defence: int)
    requires defence != 0
    ensures Damage(level, attack, power, defence, VarianceMax) == BaseDamage(level, attack, power, defence)
  {
    NeutralModifiers(level, attack, power, defence, VarianceMax);
    var b := BaseDamage(level, attack, power, defence);
    assert FloorDiv(b * 255, 255) == b;
  }

  /** A larger variance factor never gives less damage when the base is non-negative. */
  lemma DamageMonotoneInVariance(level: int, attack: int, power: int, defence: int, v1: int, v2: int)
    requires defence != 0
    requires BaseDamage(level, attack, power, defence) >= 0
    requires v1 <= v2
    ensures Damage(level, attack, power, defence, v1) <= Damage(level, attack, power, defence, v2)
  {
    NeutralModifiers(level, attack, power, defence, v1);
    NeutralModifiers(level, attack, power, defence, v2);
    var b := BaseDamage(level, attack, power, defence);
    assert b * v1 <= b * v2 by {
      assert b * (v2 - v1) >= 0;
    }
    FloorDivMonotone(b * v1, b * v2, 255);
  }

  /** Flooring by a positive divisor preserves order. */
  lemma FloorDivMonotone(a: int, b: int, d: int)
    requires d > 0 && a <= b
    ensures FloorDiv(a, d) <= FloorDiv(b, d)
  {
    var qa := FloorDiv(a, d);
    var qb := FloorDiv(b, d);
    assert d * qa < d * qb + d;
    assert d * (qb + 1 - qa) > 0;
    PositiveFactor(d, qb + 1 - qa);
  }

  /** A positive product with a positive first factor has a positive second one. */
  lemma PositiveFactor(d: int, x: int)
    requires d > 0 && d * x > 0
    ensures x > 0
  {
  }

  /** The worked example: level 50, attack 100, power 80, defence 100 and the
      maximal variance factor give 37 damage
      (22, then 1760, then 37, then 37, then 37). */
  lemma WorkedExample()
    ensures CalculateDamage(50, 100, 80, 100, VarianceMax) == Ok(37)
  {
    assert LevelTerm(50) == 22;
    assert FloorDiv(22 * 100 * 80, 100) == 1760;
    assert BaseDamage(50, 100, 80, 100) == 37;
    MaxVarianceIsBase(50, 100, 80, 100);
  }
}
