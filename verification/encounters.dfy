/** Properties of whole encounters: a fresh engine driven only by takeTurn. */
module Encounters {
  import opened Failures
  import opened Fighters
  import opened Engine

  /** `turn` is One exactly when an even number of turns has been consumed. */
  predicate TurnParity(s: CombatState) {
    (s.turn == One) <==> s.turns % 2 == 0
  }

  /** Until the fight is decided both combatants stand; once it is decided
      exactly one of them is below 1 health. */
  predicate Consistent(s: CombatState) {
    && (!s.winner ==> s.one.health >= 1 && s.two.health >= 1)
    && (s.winner ==> (s.one.health < 1) != (s.two.health < 1))
  }

  /** Only health changes on a combatant during a fight. */
  predicate SameButHealth(a: Combatant, b: Combatant) {
    a == b.(health := a.health)
  }

  /** One takeTurn call keeps the parity of turn and turn count. */
  lemma TakeTurnKeepsParity(s: CombatState, q: Request)
    requires TurnParity(s)
    ensures TurnParity(TakeTurn(s, q.moveIndex, q.hitRoll, q.varianceRoll).state)
  {
    var r := TakeTurn(s, q.moveIndex, q.hitRoll, q.varianceRoll);
    if Validated(s, q.moveIndex) {
      assert r.state.turns % 2 != s.turns % 2;
    }
  }

  /** Any sequence of takeTurn calls keeps the parity of turn and turn count. */
  lemma {:induction false} PlayKeepsParity(s: CombatState, requests: seq<Request>)
    requires TurnParity(s)
    ensures TurnParity(Play(s, requests))
    decreases |requests|
  {
    if |requests| > 0 {
      var q := requests[0];
      TakeTurnKeepsParity(s, q);
      PlayKeepsParity(TakeTurn(s, q.moveIndex, q.hitRoll, q.varianceRoll).state, requests[1..]);
    }
  }

  /** From a fresh engine, `turn` is One exactly when the turn count is even. */
  lemma ParityFromStart(one: Combatant, two: Combatant, id: string, requests: seq<Request>)
    ensures Play(Start(one, two, id), requests).turn == One
            <==> Play(Start(one, two, id), requests).turns % 2 == 0
  {
    PlayKeepsParity(Start(one, two, id), requests);
  }

  /** A decided engine is frozen: no further sequence of calls changes anything. */
  lemma {:induction false} DecidedIsFrozen(s: CombatState, requests: seq<Request>)
    requires s.winner
    ensures Play(s, requests) == s
    decreases |requests|
  {
    if |requests| > 0 {
      DecidedIsFrozen(s, requests[1..]);
    }
  }

  /** Once decided, always decided. */
  lemma {:induction false} WinnerIsMonotone(s: CombatState, requests: seq<Request>)
    ensures s.winner ==> Play(s, requests).winner
    ensures Play(s, requests).turns >= s.turns
    decreases |requests|
  {
    if |requests| > 0 {
      var q := requests[0];
      var next := TakeTurn(s, q.moveIndex, q.hitRoll, q.varianceRoll).state;
      WinnerIsMonotone(next, requests[1..]);
    }
  }

  /** Each call consumes at most one turn; the id and everything about the
      combatants except their health stay as they were. */
  lemma {:induction false} PlayBookkeeping(s: CombatState, requests: seq<Request>)
    ensures s.turns <= Play(s, requests).turns <= s.turns + |requests|
    ensures Play(s, requests).id == s.id
    ensures SameButHealth(Play(s, requests).one, s.one)
    ensures SameButHealth(Play(s, requests).two, s.two)
    decreases |requests|
  {
    if |requests| > 0 {
      var q := requests[0];
      var r := TakeTurn(s, q.moveIndex, q.hitRoll, q.varianceRoll);
      assert SameButHealth(r.state.Fighter(s.turn), s.Fighter(s.turn));
      assert SameButHealth(r.state.Fighter(Other(s.turn)), s.Fighter(Other(s.turn)));
      assert SameButHealth(r.state.one, s.one) && SameButHealth(r.state.two, s.two) by {
        match s.turn
        case One =>
        case Two =>
      }
      PlayBookkeeping(r.state, requests[1..]);
    }
  }

  /** One takeTurn call keeps the engine consistent. */
  lemma TakeTurnKeepsConsistent(s: CombatState, q: Request)
    requires Consistent(s)
    ensures Consistent(TakeTurn(s, q.moveIndex, q.hitRoll, q.varianceRoll).state)
  {
    var r := TakeTurn(s, q.moveIndex, q.hitRoll, q.varianceRoll);
    if Hits(s, q.moveIndex, q.hitRoll) && !HitsZeroDefence(s, q.moveIndex, q.hitRoll) {
      assert r.state.Fighter(s.turn).health == s.Fighter(s.turn).health >= 1;
      match s.turn
      case One =>
      case Two =>
    }
  }

  /** Any sequence of takeTurn calls keeps the engine consistent. */
  lemma {:induction false} PlayKeepsConsistent(s: CombatState, requests: seq<Request>)
    requires Consistent(s)
    ensures Consistent(Play(s, requests))
    decreases |requests|
  {
    if |requests| > 0 {
      var q := requests[0];
      TakeTurnKeepsConsistent(s, q);
      PlayKeepsConsistent(TakeTurn(s, q.moveIndex, q.hitRoll, q.varianceRoll).state, requests[1..]);
    }
  }

  /** For two combatants that start standing, whenever the fight has been
      decided getWinner names the one still standing, and the other is down. */
  lemma WinnerIsSurvivor(one: Combatant, two: Combatant, id: string, requests: seq<Request>)
    requires one.health >= 1 && two.health >= 1
    ensures var s := Play(Start(one, two, id), requests);
            s.winner ==>
              GetWinner(s).Ok? && GetWinner(s).value.health >= 1
              && (GetWinner(s).value == s.one ==> s.two.health < 1)
              && (GetWinner(s).value == s.two ==> s.one.health < 1)
  {
    PlayKeepsConsistent(Start(one, two, id), requests);
  }
}
