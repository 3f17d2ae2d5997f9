/** Best-of-three tennis as a step machine over points, after the ITF Rules of Tennis:
    rule 5 (score in a game and in a tie-break game), rule 6 (score in a set) and
    rule 7 (score in a match).  It knows nothing of the strategies that watch it.
 */
module TennisRules {

  datatype Player = Home | Away {
    function Other(): Player { if Home? then Away else Home }
    function Number(): int { if Home? then 1 else 2 }
  }

  datatype Pair = Pair(home: nat, away: nat) {
    function Of(w: Player): nat { if w.Home? then home else away }
    function Won(w: Player): Pair { if w.Home? then Pair(home + 1, away) else Pair(home, away + 1) }
    function Lead(w: Player): int { Of(w) - Of(w.Other()) }
  }

  /** Sets, games in the current set, points in the current game. */
  datatype State = State(sets: Pair, games: Pair, points: Pair)

  const Start := State(Pair(0, 0), Pair(0, 0), Pair(0, 0))

  predicate InTiebreak(s: State) { s.games == Pair(6, 6) }

  /** Rule 5: four points (seven in a tie-break) and two ahead. */
  predicate WinsGame(s: State, w: Player) {
    var p := s.points.Won(w);
    p.Of(w) >= (if InTiebreak(s) then 7 else 4) && p.Lead(w) >= 2
  }

  /** Rule 6: six games and two ahead, or the tie-break game. */
  predicate WinsSet(s: State, w: Player) {
    var g := s.games.Won(w);
    WinsGame(s, w) && (InTiebreak(s) || (g.Of(w) >= 6 && g.Lead(w) >= 2))
  }

  /** Rule 7: two sets. */
  predicate Over(s: State) { s.sets.home >= 2 || s.sets.away >= 2 }

  predicate WinsMatch(s: State, w: Player) {
    WinsSet(s, w) && s.sets.Of(w) == 1
  }

  function Step(s: State, w: Player): State {
    if WinsSet(s, w) then State(s.sets.Won(w), Pair(0, 0), Pair(0, 0))
    else if WinsGame(s, w) then State(s.sets, s.games.Won(w), Pair(0, 0))
    else State(s.sets, s.games, s.points.Won(w))
  }

  /** The state after the points `ws`, all played. */
  function Play(ws: seq<Player>): State {
    if ws == [] then Start else Step(Play(ws[..|ws| - 1]), ws[|ws| - 1])
  }

  /** Rule 5: the player due to serve serves the whole game; in a tie-break game only the
      first point, after which the players serve two points each in turn. */
  function Serves(s: State, due: Player): Player {
    if InTiebreak(s) && (s.points.home + s.points.away) % 4 in {1, 2} then due.Other() else due
  }

  /** Points are played only while the match is on. */
  predicate Playable(ws: seq<Player>) {
    forall i :: 0 <= i < |ws| ==> !Over(Play(ws[..i]))
  }

  /** What every state of a match in progress satisfies. */
  predicate InPlay(s: State) {
    && s.sets.home <= 1 && s.sets.away <= 1
    && ((s.games.home <= 5 && s.games.away <= 5) || (s.games.home + s.games.away >= 11 && s.games.home <= 6 && s.games.away <= 6))
    && (s.points.home >= (if InTiebreak(s) then 7 else 4) ==> s.points.Lead(Home) <= 1)
    && (s.points.away >= (if InTiebreak(s) then 7 else 4) ==> s.points.Lead(Away) <= 1)
  }

  lemma {:induction false} PlayInPlay(ws: seq<Player>)
    requires Playable(ws)
    ensures !Over(Play(ws)) ==> InPlay(Play(ws))
  {
    if ws != [] {
      var rest := ws[..|ws| - 1];
      assert forall i :: 0 <= i < |rest| ==> rest[..i] == ws[..i];
      assert !Over(Play(rest)) by { assert rest == ws[..|ws| - 1]; }
      PlayInPlay(rest);
    }
  }
}
