/** The two parties of a fight and what they can do. Combatant and Move are
    records owned by the caller; the engine reads them and writes health only. */
module Fighters {

  /** Whose move resolves next. The PHP class keeps the strings 'One' and 'Two'
      and builds the property name `combatantOne` / `combatantTwo` from them. */
  datatype Side = One | Two

  /** The side that is not `side`: the `'One' ? 'Two' : 'One'` flip. */
  function Other(side: Side): (o: Side)
    ensures o != side
  {
    match side
    case One => Two
    case Two => One
  }

  /** Flipping twice gives the side back, so turns alternate. */
  lemma OtherInvolutive(side: Side)
    ensures Other(Other(side)) == side
  {
  }

  /** The turn label `getTurn` reports. */
  function TurnName(side: Side): (name: string)
    ensures name == "One" || name == "Two"
    ensures (name == "One") <==> side == One
  {
    match side
    case One => "One"
    case Two => "Two"
  }

  /** The label of the other side is the one the source computes from the
      current label with `=== 'One' ? 'Two' : 'One'`. */
  lemma OtherFlipsTurnName(side: Side)
    ensures TurnName(Other(side)) == if TurnName(side) == "One" then "Two" else "One"
  {
  }

  /** One selectable action: a hit chance in percent and a base power. */
  datatype Move = Move(accuracy: int, damage: int)

  /** A fighting party. `moves` is addressed by zero-based index. */
  datatype Combatant = Combatant(
    name: string,
    level: int,
    attack: int,
    defence: int,
    health: int,
    moves: seq<Move>)

  /** `array_key_exists($moveIndex, $attacker->moves)` on a list of moves. */
  predicate HasMove(c: Combatant, moveIndex: int) {
    0 <= moveIndex < |c.moves|
  }
}
