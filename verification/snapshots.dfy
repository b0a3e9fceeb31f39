/** `Combat::toArray` and `Combat::setStateFromArray`: a structural export of
    the whole encounter and a restore of the engine's own scalar fields only. */
module Snapshots {
  import opened Failures
  import opened Fighters
  import opened Engine

  /** The exported structure. `winner` is the winning combatant's record, or
      None for the `false` an undecided fight exports. */
  datatype Snapshot = Snapshot(
    one: Combatant,
    two: Combatant,
    turn: Side,
    turns: int,
    id: string,
    winner: Option<Combatant>)

  /** `toArray`: reads the state, never fails, and exports an undecided fight
      with no winner instead of raising the not-won error. */
  function ToArray(s: CombatState): (snap: Snapshot)
    ensures snap.one == s.one && snap.two == s.two
    ensures snap.turn == s.turn && snap.turns == s.turns && snap.id == s.id
    ensures snap.winner.None? <==> !s.winner
    ensures snap.winner.Some? ==> GetWinner(s) == Ok(snap.winner.value)
  {
    var winner := if GetWinner(s).Ok? then Some(GetWinner(s).value) else None;
    Snapshot(s.one, s.two, s.turn, s.turns, s.id, winner)
  }

  /** `setStateFromArray` as written: `turn`, `turns` and `id` are assigned,
      then the exported winner is assigned to the bool `winner` property. The
      `false` of an undecided export is accepted; a combatant record is not a
      bool, so PHP throws a TypeError with the first three fields already
      overwritten. */
  function SetStateFromArrayAsWritten(s: CombatState, data: Snapshot): (r: Outcome)
    ensures r.state.one == s.one && r.state.two == s.two
    ensures r.state.turn == data.turn && r.state.turns == data.turns && r.state.id == data.id
    ensures r.Returned? <==> data.winner.None?
    ensures r.Returned? ==> !r.state.winner
    ensures r.Thrown? ==> r.error == TypeError && r.state.winner == s.winner
  {
    var written := s.(turn := data.turn, turns := data.turns, id := data.id);
    match data.winner
    case None => Returned(written.(winner := false))
    case Some(_) => Thrown(written, TypeError)
  }

  /** Restoring the export of any decided engine as written throws, so a
      decided fight cannot be round-tripped. */
  lemma DecidedRestoreThrows(s: CombatState, target: CombatState)
    requires s.winner
    ensures SetStateFromArrayAsWritten(target, ToArray(s)) == Thrown(
              target.(turn := s.turn, turns := s.turns, id := s.id), TypeError)
  {
  }

  /** A concrete case: combatant two has been knocked out after one turn; its
      export, restored as written into a fresh engine over the same
      combatants, throws and leaves that engine undecided. */
  lemma DecidedRestoreCounterexample()
    ensures var c := Combatant("c", 1, 1, 1, 5, [Move(100, 1)]);
            var down := c.(health := 0);
            var s := CombatState(c, down, Two, 1, "id", true);
            var r := SetStateFromArrayAsWritten(Start(c, down, "fresh"), ToArray(s));
            r.Thrown? && r.error == TypeError && !r.state.winner && r.state != s
  {
  }

  /** `setStateFromArray` as intended: the scalar engine fields `turn`, `turns`,
      `id` and the decided flag are taken from the export (decided exactly when
      it names a winner); the combatants are left as they are. */
  function SetStateFromArray(s: CombatState, data: Snapshot): (r: CombatState)
    ensures r.one == s.one && r.two == s.two
    ensures r.turn == data.turn && r.turns == data.turns && r.id == data.id
    ensures r.winner <==> data.winner.Some?
  {
    s.(turn := data.turn, turns := data.turns, id := data.id, winner := data.winner.Some?)
  }

  /** The as-written restore and the intended one agree on every undecided export. */
  lemma RestoresAgreeWhenUndecided(s: CombatState, data: Snapshot)
    requires data.winner.None?
    ensures SetStateFromArrayAsWritten(s, data) == Returned(SetStateFromArray(s, data))
  {
  }

  /** Round trip: restoring an export into any engine reproduces the exported
      engine's turn, turn count, id and decided flag, and keeps the target's
      combatants; into an engine holding the same combatants it reproduces the
      exported state exactly. */
  lemma RoundTrip(s: CombatState, target: CombatState)
    ensures var r := SetStateFromArray(target, ToArray(s));
            r.turn == s.turn && r.turns == s.turns && r.id == s.id && r.winner == s.winner
            && r.one == target.one && r.two == target.two
    ensures target.one == s.one && target.two == s.two ==> SetStateFromArray(target, ToArray(s)) == s
  {
  }

  /** The partial restore: health lost in the exported fight is not brought
      back into an engine whose combatants were reset. */
  lemma RestoreKeepsTargetHealth(s: CombatState, target: CombatState)
    ensures SetStateFromArray(target, ToArray(s)).one.health == target.one.health
    ensures SetStateFromArray(target, ToArray(s)).two.health == target.two.health
  {
  }

  /** Exporting twice with no call in between gives the same snapshot, and the
      export is enough to answer getWinner. */
  lemma ExportAnswersGetWinner(s: CombatState)
    ensures ToArray(s).winner.Some? ==> GetWinner(s).Ok? && GetWinner(s).value == ToArray(s).winner.value
    ensures ToArray(s).winner.None? ==> GetWinner(s) == Err(NotWon)
  {
  }
}
