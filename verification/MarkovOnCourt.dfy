/** The Markov model against the rules of tennis: a game's value is the mean of its values
    after either outcome of the next point, by the rules; and a point that does not end its
    game never lowers its winner's chances.
 */
module MarkovOnCourt {
  import opened Markov
  import opened MarkovMonotone
  import opened Fractions
  import opened TennisRules
  import opened PointFlagTheorems
  import MarkovSymmetry

  /** The query a score on court stands for, `server` serving the next point. */
  function ScoreAt(s: State, server: int): Score {
    var row := RowOf(s, server, Home);
    Score(s.sets.home, s.sets.away, s.games.home, s.games.away, row.homePoints, row.awayPoints, server, InTiebreak(s))
  }

  /** The serve stays within a game and follows the tie-break pattern within a tie-break. */
  predicate ServesOn(s: State, server: int, server': int) {
    if InTiebreak(s) then server' == 1 <==> TbNextServes(s.points.home, s.points.away, server == 1)
    else server' == server
  }

  lemma PointOnCourt(p: real, s: State, w: Player, server: int, server': int)
    requires Unit(p) && InPlay(s) && !WinsGame(s, w) && ServesOn(s, server, server')
    requires Representable(s) && Representable(Step(s, w))
    ensures var before, after := WinProbability(p, ScoreAt(s, server)), WinProbability(p, ScoreAt(Step(s, w), server'));
            if w.Home? then before <= after else after <= before
  {
    var before, after := ScoreAt(s, server), ScoreAt(Step(s, w), server');
    if InTiebreak(s) {
      TbPointValueDecimal(s.points.home);
      TbPointValueDecimal(s.points.away);
      TbPointValueDecimal(s.points.Of(w) + 1);
      TiebreakPointNeverHurts(p, before, after, w.Home?);
    } else {
      hide WinProbability;
      PointNeverHurts(p, before);
      if w.Home? {
        var n := NextPoints(before.homePoints, before.awayPoints);
        assert after == before.(homePoints := n.0, awayPoints := n.1);
      } else {
        var n := NextPoints(before.awayPoints, before.homePoints);
        assert after == before.(awayPoints := n.0, homePoints := n.1);
      }
    }
  }

  // ---------------------------------------------------------------- one point, by the rules

  /** The value of the game at hand at a score on court, whoever the rules say serves. */
  function GameOnCourt(p: real, s: State, due: Player): real {
    CurrentGame(p, ScoreAt(s, Serves(s, due).Number()))
  }

  /** The same after home (or away) wins the next point, the game's end included. */
  function AfterPoint(p: real, s: State, due: Player, w: Player): real {
    if WinsGame(s, w) then (if w.Home? then 1.0 else 0.0) else GameOnCourt(p, Step(s, w), due)
  }

  lemma GameStrings(s: State)
    requires InPlay(s) && !InTiebreak(s)
    ensures var h, a := s.points.home, s.points.away;
            var x, y := PointValue(PointString(h, a)), PointValue(PointString(a, h));
            if h >= 3 && a >= 3 then x >= 3 && y >= 3 && x - y == h - a else x == h && y == a
  {
  }

  /** Past three all a game value depends on the difference only. */
  lemma GameByLead(h: int, a: int, x: int, y: int, p: real)
    requires h >= 3 && a >= 3 && x >= 3 && y >= 3 && x - y == h - a && -2 <= h - a <= 2
    ensures Game(h, a, p) == Game(x, y, p)
  {
  }

  /** Outside tie-breaks the strings stand for the points played. */
  lemma GameByPoints(p: real, s: State, server: int)
    requires InPlay(s) && !InTiebreak(s)
    ensures CurrentGame(p, ScoreAt(s, server)) == Game(s.points.home, s.points.away, PointProb(p, server == 1))
  {
    hide Game;
    GameStrings(s);
    var h, a := s.points.home, s.points.away;
    if h >= 3 && a >= 3 {
      GameByLead(h, a, PointValue(PointString(h, a)), PointValue(PointString(a, h)), PointProb(p, server == 1));
    }
  }

  lemma TiebreakByPoints(p: real, s: State, server: int)
    requires InTiebreak(s) && Representable(s)
    ensures CurrentGame(p, ScoreAt(s, server)) == Tiebreak(p, s.points.home, s.points.away, server == 1)
  {
    hide Tiebreak;
    TbPointValueDecimal(s.points.home);
    TbPointValueDecimal(s.points.away);
  }

  /** The serve pattern of the recursion is the one of the rules. */
  lemma ServePattern(s: State, due: Player, w: Player)
    requires InTiebreak(s) && !WinsGame(s, w)
    ensures Serves(Step(s, w), due).Home? <==> TbNextServes(s.points.home, s.points.away, Serves(s, due).Home?)
  {
    var n := s.points.home + s.points.away;
    assert Step(s, w).points.home + Step(s, w).points.away == n + 1;
    QuarterTurn(n);
  }

  lemma QuarterTurn(n: nat)
    ensures (n + 1) % 4 in {1, 2} <==> if n % 2 == 0 then n % 4 !in {1, 2} else n % 4 in {1, 2}
  {
  }

  /** Also where a closed form answers, the tie-break is worth the mean of its two successors. */
  lemma TiebreakOneStep(p: real, h: int, a: int, s: bool)
    requires !TbWon(h, a) && !TbWon(a, h)
    ensures var next := TbNextServes(h, a, s);
            Tiebreak(p, h, a, s) == Mix(PointProb(p, s), Tiebreak(p, h + 1, a, next), Tiebreak(p, h, a + 1, next))
  {
    if TbDeuce(h, a) {
      MarkovSymmetry.TbDeuceIsHalf(p);
      var q, r := PointProb(p, s), PointProb(p, !s);
      HalfStep(q, r);
    }
  }

  lemma HalfStep(q: real, r: real)
    requires q + r == 1.0
    ensures Mix(q, Mix(r, 1.0, 0.5), Mix(r, 0.5, 0.0)) == 0.5
  {
    var x, y := Mix(r, 1.0, 0.5), Mix(r, 0.5, 0.0);
    assert x == 0.5 + 0.5 * r && y == 0.5 * r;
    hide Mix;
    MixIs(q, x, y);
    assert q * x + (1.0 - q) * y == y + q * (x - y);
  }

  /** At every score of every match, games and tie-breaks alike, the value of the game at hand
      is its value after the next point, weighed by who serves it. */
  lemma OnePoint(p: real, s: State, due: Player)
    requires InPlay(s) && Representable(s) && Representable(Step(s, Home)) && Representable(Step(s, Away))
    ensures var q := PointProb(p, Serves(s, due).Home?);
            && q == (if Serves(s, due).Home? then p else 1.0 - p)
            && GameOnCourt(p, s, due) == Mix(q, AfterPoint(p, s, due, Home), AfterPoint(p, s, due, Away))
  {
    assert PointProb(p, Serves(s, due).Home?) == if Serves(s, due).Home? then p else 1.0 - p;
    hide GameOnCourt, AfterPoint, Mix, Representable, InPlay, Step, PointProb, Serves;
    if InTiebreak(s) {
      OneTiebreakPoint(p, s, due);
    } else {
      OneGamePoint(p, s, due);
    }
  }

  lemma OneTiebreakPoint(p: real, s: State, due: Player)
    requires InPlay(s) && InTiebreak(s) && Representable(s) && Representable(Step(s, Home)) && Representable(Step(s, Away))
    ensures GameOnCourt(p, s, due) ==
            Mix(PointProb(p, Serves(s, due).Home?), AfterPoint(p, s, due, Home), AfterPoint(p, s, due, Away))
  {
    var server := Serves(s, due);
    TiebreakAfter(p, s, due, Home);
    TiebreakAfter(p, s, due, Away);
    hide Mix, ScoreAt, AfterPoint, CurrentGame, TbNextServes, Serves, Step;
    TiebreakByPoints(p, s, server.Number());
    TiebreakOneStep(p, s.points.home, s.points.away, server.Home?);
  }

  lemma OneGamePoint(p: real, s: State, due: Player)
    requires InPlay(s) && !InTiebreak(s)
    ensures GameOnCourt(p, s, due) ==
            Mix(PointProb(p, Serves(s, due).Home?), AfterPoint(p, s, due, Home), AfterPoint(p, s, due, Away))
  {
    GameAfter(p, s, due, Home);
    GameAfter(p, s, due, Away);
    hide Mix, ScoreAt, AfterPoint, CurrentGame, Game, Step;
    GameByPoints(p, s, Serves(s, due).Number());
    GameOneStep(s.points.home, s.points.away, PointProb(p, Serves(s, due).Home?));
  }

  /** A mean weighs the two outcomes by their probabilities. */
  lemma MixIs(q: real, x: real, y: real)
    ensures Mix(q, x, y) == q * x + (1.0 - q) * y
  {
  }

  lemma GameAfter(p: real, s: State, due: Player, w: Player)
    requires InPlay(s) && !InTiebreak(s)
    ensures AfterPoint(p, s, due, w) ==
            Game(s.points.Won(w).home, s.points.Won(w).away, PointProb(p, Serves(s, due).Home?))
  {
    if !WinsGame(s, w) {
      hide Game, ScoreAt;
      GameByPoints(p, Step(s, w), Serves(Step(s, w), due).Number());
    }
  }

  lemma TiebreakAfter(p: real, s: State, due: Player, w: Player)
    requires InPlay(s) && InTiebreak(s) && Representable(Step(s, w))
    ensures AfterPoint(p, s, due, w) ==
            Tiebreak(p, s.points.Won(w).home, s.points.Won(w).away,
                     TbNextServes(s.points.home, s.points.away, Serves(s, due).Home?))
  {
    if !WinsGame(s, w) {
      hide Tiebreak, ScoreAt;
      ServePattern(s, due, w);
      TiebreakByPoints(p, Step(s, w), Serves(Step(s, w), due).Number());
    }
  }

  // ---------------------------------------------------------------- texts and prices

  /** Point texts: the five of a game stand for no to four points, any other for none. */
  lemma PointTexts(s: string)
    ensures PointValue("0") == 0 && PointValue("15") == 1 && PointValue("30") == 2 && PointValue("40") == 3 && PointValue("A") == 4
    ensures s !in {"15", "30", "40", "A"} ==> PointValue(s) == 0
  {
  }

  /** A fair value is the win probability itself between one and 99 cents, and the nearer of
      the two beyond; likewise for the set. */
  lemma FairValueExactly(p: real, s: Score)
    ensures var x, fair := WinProbability(p, s), FairValue(p, s);
            && (0.01 <= x <= 0.99 ==> fair == x) && (x < 0.01 ==> fair == 0.01) && (x > 0.99 ==> fair == 0.99)
    ensures var x, fair := CurrentSet(p, s), SetWinProbability(p, s);
            && (0.01 <= x <= 0.99 ==> fair == x) && (x < 0.01 ==> fair == 0.01) && (x > 0.99 ==> fair == 0.99)
  {
    hide WinProbability, CurrentSet;
  }
}
