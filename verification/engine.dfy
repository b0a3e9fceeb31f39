/** The `Combat` engine: the state of one encounter between two combatants and
    the turn state machine. Randomness arrives as explicit roll values: the hit
    roll (1..100) and, only on a hit, the variance roll (217..255). */
module Engine {
  import opened Failures
  import opened Fighters
  import opened Damage

  /** The state of one encounter. `one` and `two` are the combatants, never
      swapped; `turn` says whose move resolves next; `turns` counts consumed
      turns; `winner` latches once a defender drops below 1 health. The
      accessors getCombatantOne/Two, getTurns, getId and isWinner read these
      fields. */
  datatype CombatState = CombatState(
    one: Combatant,
    two: Combatant,
    turn: Side,
    turns: int,
    id: string,
    winner: bool)
  {
    /** The combatant on `side`: the `$this->{'combatant' . $side}` lookup. */
    function Fighter(side: Side): Combatant {
      match side
      case One => one
      case Two => two
    }

    /** This state with the combatant on `side` replaced by `c`. */
    function WithFighter(side: Side, c: Combatant): (s: CombatState)
      ensures s.Fighter(side) == c
      ensures s.Fighter(Other(side)) == Fighter(Other(side))
      ensures s.turn == turn && s.turns == turns && s.id == id && s.winner == winner
    {
      match side
      case One => this.(one := c)
      case Two => this.(two := c)
    }
  }

  /** The state a freshly constructed engine starts in; `id` stands for the
      generated UUID. */
  function Start(one: Combatant, two: Combatant, id: string): CombatState {
    CombatState(one, two, One, 0, id, false)
  }

  /** How an engine call ended: normally, or by throwing `error`. Either way
      `state` is the engine (and combatants) after the call, since PHP keeps
      whatever was assigned before the throw. */
  datatype Outcome =
    | Returned(state: CombatState)
    | Thrown(state: CombatState, error: CombatError)

  /** The call passes both checks of takeTurn and consumes the turn. */
  predicate Validated(s: CombatState, moveIndex: int) {
    !s.winner && HasMove(s.Fighter(s.turn), moveIndex)
  }

  /** The selected move of a validated call. */
  function SelectedMove(s: CombatState, moveIndex: int): Move
    requires Validated(s, moveIndex)
  {
    s.Fighter(s.turn).moves[moveIndex]
  }

  /** The attack lands: the hit roll does not exceed the move's accuracy. */
  predicate Hits(s: CombatState, moveIndex: int, hitRoll: int) {
    Validated(s, moveIndex) && hitRoll <= SelectedMove(s, moveIndex).accuracy
  }

  /** The attack lands on a defender whose defence is 0, so the damage
      formula divides by zero. */
  predicate HitsZeroDefence(s: CombatState, moveIndex: int, hitRoll: int) {
    Hits(s, moveIndex, hitRoll) && s.Fighter(Other(s.turn)).defence == 0
  }

  /** The damage a landed attack deals, for a defender with non-zero defence. */
  function HitDamage(s: CombatState, moveIndex: int, varianceRoll: int): int
    requires Validated(s, moveIndex)
    requires s.Fighter(Other(s.turn)).defence != 0
  {
    var attacker := s.Fighter(s.turn);
    Damage.Damage(attacker.level, attacker.attack, SelectedMove(s, moveIndex).damage,
                  s.Fighter(Other(s.turn)).defence, varianceRoll)
  }

  /** `Combat::takeTurn`. */
  function TakeTurn(s: CombatState, moveIndex: int, hitRoll: int, varianceRoll: int): (r: Outcome)
    // A decided fight refuses the call and nothing changes.
    ensures s.winner ==> r == Thrown(s, AlreadyWon)
    // An index outside the attacker's moves is refused before the turn is consumed.
    ensures !s.winner && !HasMove(s.Fighter(s.turn), moveIndex) ==> r == Thrown(s, MoveDoesNotExist)
    // A validated call consumes exactly one turn and hands it to the other side, hit or miss.
    ensures Validated(s, moveIndex) ==>
              r.state.turns == s.turns + 1 && r.state.turn == Other(s.turn)
    // The id never changes and the attacker is never touched.
    ensures r.state.id == s.id
    ensures r.state.Fighter(s.turn) == s.Fighter(s.turn)
    // Of the defender at most the health changes.
    ensures r.state.Fighter(Other(s.turn))
            == s.Fighter(Other(s.turn)).(health := r.state.Fighter(Other(s.turn)).health)
    // A call ends normally exactly when it is validated and does not divide by zero.
    ensures r.Returned? <==> Validated(s, moveIndex) && !HitsZeroDefence(s, moveIndex, hitRoll)
    ensures HitsZeroDefence(s, moveIndex, hitRoll) ==> r.error == DivisionByZero
    // Without a landed, computable hit no health changes and the winner flag stays.
    ensures !Hits(s, moveIndex, hitRoll) || HitsZeroDefence(s, moveIndex, hitRoll) ==>
              r.state.one.health == s.one.health && r.state.two.health == s.two.health
              && r.state.winner == s.winner
    // A landed hit takes exactly the formula's damage off the defender, unclamped,
    // and decides the fight exactly when the defender ends below 1 health.
    ensures Hits(s, moveIndex, hitRoll) && !HitsZeroDefence(s, moveIndex, hitRoll) ==>
              r.state.Fighter(Other(s.turn)).health
                == s.Fighter(Other(s.turn)).health - HitDamage(s, moveIndex, varianceRoll)
              && (r.state.winner <==> r.state.Fighter(Other(s.turn)).health < 1)
  {
    if s.winner then Thrown(s, AlreadyWon)
    else
      var attacker := s.Fighter(s.turn);
      if !HasMove(attacker, moveIndex) then Thrown(s, MoveDoesNotExist)
      else
        var move := attacker.moves[moveIndex];
        var defenderSide := Other(s.turn);
        var defender := s.Fighter(defenderSide);
        var consumed := s.(turns := s.turns + 1, turn := defenderSide);
        if hitRoll > move.accuracy then Returned(consumed)
        else
          match CalculateDamage(attacker.level, attacker.attack, move.damage, defender.defence, varianceRoll)
          case Err(e) => Thrown(consumed, e)
          case Ok(damage) =>
            var struck := defender.(health := defender.health - damage);
            var after := consumed.WithFighter(defenderSide, struck);
            if struck.health < 1 then Returned(after.(winner := true)) else Returned(after)
  }

  /** `Combat::getWinner`: re-derived from live health, combatant one first. */
  function GetWinner(s: CombatState): (r: Result<Combatant>)
    ensures r.Err? <==> !s.winner
    ensures r.Err? ==> r.error == NotWon
    ensures r.Ok? && s.one.health >= 1 ==> r.value == s.one
    ensures r.Ok? && s.one.health < 1 ==> r.value == s.two
  {
    if !s.winner then Err(NotWon)
    else if s.one.health >= 1 then Ok(s.one)
    else Ok(s.two)
  }

  /** One takeTurn call: the move index and the rolls the randomizer hands out. */
  datatype Request = Request(moveIndex: int, hitRoll: int, varianceRoll: int)

  /** A caller issuing `requests` in order and catching every exception; each
      call starts from the state the previous one left. */
  function Play(s: CombatState, requests: seq<Request>): CombatState
    decreases |requests|
  {
    if |requests| == 0 then s
    else
      var q := requests[0];
      Play(TakeTurn(s, q.moveIndex, q.hitRoll, q.varianceRoll).state, requests[1..])
  }

  /** The randomizer's range for the hit roll. */
  predicate HitRollInRange(hitRoll: int) {
    1 <= hitRoll <= 100
  }

  /** An accuracy of 100 or more always hits, an accuracy of 0 or less never
      does, for every hit roll the randomizer can produce. */
  lemma AccuracyExtremes(s: CombatState, moveIndex: int, hitRoll: int)
    requires Validated(s, moveIndex) && HitRollInRange(hitRoll)
    ensures SelectedMove(s, moveIndex).accuracy >= 100 ==> Hits(s, moveIndex, hitRoll)
    ensures SelectedMove(s, moveIndex).accuracy <= 0 ==>
              !Hits(s, moveIndex, hitRoll)
              && TakeTurn(s, moveIndex, hitRoll, 0).state.one.health == s.one.health
              && TakeTurn(s, moveIndex, hitRoll, 0).state.two.health == s.two.health
  {
  }

  /** A miss consumes no variance roll: its outcome does not depend on it. */
  lemma MissIgnoresVariance(s: CombatState, moveIndex: int, hitRoll: int, v1: int, v2: int)
    requires !Hits(s, moveIndex, hitRoll)
    ensures TakeTurn(s, moveIndex, hitRoll, v1) == TakeTurn(s, moveIndex, hitRoll, v2)
  {
  }

  /** takeTurn never clears the winner flag. */
  lemma WinnerLatches(s: CombatState, moveIndex: int, hitRoll: int, varianceRoll: int)
    requires s.winner
    ensures TakeTurn(s, moveIndex, hitRoll, varianceRoll).state.winner
  {
  }

  /** If both combatants stand when the deciding turn is taken, getWinner
      afterwards names that turn's attacker. */
  lemma DecidingAttackerWins(s: CombatState, moveIndex: int, hitRoll: int, varianceRoll: int)
    requires !s.winner && s.one.health >= 1 && s.two.health >= 1
    requires TakeTurn(s, moveIndex, hitRoll, varianceRoll).state.winner
    ensures GetWinner(TakeTurn(s, moveIndex, hitRoll, varianceRoll).state) == Ok(s.Fighter(s.turn))
  {
  }

  /** The end-to-end scenario: two combatants at 10 health, a certain move of
      power 1000 from a level-100, attack-100 attacker against defence 1 and the
      maximal variance factor: the first turn decides the fight for combatant one. */
  lemma OneHitKnockout(hitRoll: int, id: string)
    requires HitRollInRange(hitRoll)
    ensures var one := Combatant("one", 100, 100, 1, 10, [Move(100, 1000)]);
            var two := Combatant("two", 100, 100, 1, 10, [Move(100, 1000)]);
            var r := TakeTurn(Start(one, two, id), 0, hitRoll, VarianceMax);
            r.Returned? && r.state.winner && r.state.two.health < 1
            && GetWinner(r.state) == Ok(one)
  {
    var one := Combatant("one", 100, 100, 1, 10, [Move(100, 1000)]);
    var two := Combatant("two", 100, 100, 1, 10, [Move(100, 1000)]);
    var s := Start(one, two, id);
    assert Hits(s, 0, hitRoll);
    assert BaseDamage(100, 100, 1000, 1) == 84002;
    MaxVarianceIsBase(100, 100, 1000, 1);
  }
}
