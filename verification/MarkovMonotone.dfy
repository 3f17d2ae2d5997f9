/** The one-step equation and the order properties of every layer: values lie in [0,1],
    a game value grows with the point probability, and winning a point that does not end its
    game never lowers the probability of winning the match.  `GamePoints` treats the others.
 */
module MarkovMonotone {
  import opened Markov
  import opened MarkovSymmetry
  import opened Fractions

  lemma ProductNonNegative(x: real, y: real)
    requires x >= 0.0 && y >= 0.0
    ensures x * y >= 0.0
  {
  }

  lemma MixBetween(q: real, x: real, y: real)
    requires Unit(q) && x >= y
    ensures y <= Mix(q, x, y) <= x
  {
    ProductNonNegative(1.0 - q, x - y);
    ProductNonNegative(q, x - y);
  }

  lemma MixUnit(q: real, x: real, y: real)
    requires Unit(q) && Unit(x) && Unit(y)
    ensures Unit(Mix(q, x, y))
  {
    if x >= y {
      MixBetween(q, x, y);
    } else {
      MixBetween(1.0 - q, y, x);
    }
  }

  lemma MixGrows(q: real, q': real, x: real, y: real, x': real, y': real)
    requires Unit(q) && q <= q' && x <= x' && y <= y' && x' >= y'
    ensures Mix(q, x, y) <= Mix(q', x', y')
  {
    ProductNonNegative(q, x' - x);
    ProductNonNegative(1.0 - q, y' - y);
    ProductNonNegative(q' - q, x' - y');
  }

  // ---------------------------------------------------------------- game

  lemma DeuceEquations(p: real)
    ensures var d := p * p + (1.0 - p) * (1.0 - p);
            d > 0.0
            && p * 1.0 + (1.0 - p) * (p * p) / d == Mix(p, 1.0, Deuce(p))
            && p * (p * p) / d == Mix(p, Deuce(p), 0.0)
            && Deuce(p) == Mix(p, Mix(p, 1.0, Deuce(p)), Mix(p, Deuce(p), 0.0))
  {
    DeuceDenominator(p);
    var q := 1.0 - p;
    var d := p * p + q * q;
    var x := Deuce(p);
    assert x * d == p * p;
    assert q * (p * p) / d == q * x by { assert q * (p * p) == (q * x) * d; }
    assert p * (p * p) / d == p * x by { assert p * (p * p) == (p * x) * d; }
    assert d == 1.0 - 2.0 * p * q;
    assert x == p * p + 2.0 * p * q * x by { assert x * d == x - 2.0 * p * q * x; }
  }

  /** The recursion's defining equation also holds where closed forms replace it. */
  lemma GameOneStep(h: int, a: int, p: real)
    requires !GameOver(h, a)
    ensures Game(h, a, p) == Mix(p, Game(h + 1, a, p), Game(h, a + 1, p))
  {
    if h >= 3 && a >= 3 {
      DeuceEquations(p);
    }
  }

  lemma DeuceUnit(p: real)
    requires Unit(p)
    ensures Unit(Deuce(p))
  {
    DeuceDenominator(p);
    ProductNonNegative(p, p);
    ProductNonNegative(1.0 - p, 1.0 - p);
    Share(p * p, p * p + (1.0 - p) * (1.0 - p));
  }

  lemma {:induction false} GameUnit(h: int, a: int, p: real)
    requires Unit(p)
    ensures Unit(Game(h, a, p))
    decreases GameRank(h, a)
  {
    if GameOver(h, a) {
    } else if h >= 3 && a >= 3 {
      DeuceUnit(p);
      DeuceEquations(p);
      MixUnit(p, 1.0, Deuce(p));
      MixUnit(p, Deuce(p), 0.0);
    } else {
      GameUnit(h + 1, a, p);
      GameUnit(h, a + 1, p);
      MixUnit(p, Game(h + 1, a, p), Game(h, a + 1, p));
    }
  }

  /** Winning the next point is at least as good as losing it. */
  lemma {:induction false} GameOrder(h: int, a: int, p: real)
    requires Unit(p) && !GameOver(h, a)
    ensures Game(h, a + 1, p) <= Game(h, a, p) <= Game(h + 1, a, p)
    decreases GameRank(h, a)
  {
    GameUnit(h + 1, a, p);
    GameUnit(h, a + 1, p);
    if GameOver(h + 1, a) || GameOver(h, a + 1) {
    } else if h >= 3 && a >= 3 {
      assert h == a;
      DeuceUnit(p);
      DeuceEquations(p);
      MixBetween(p, 1.0, Deuce(p));
      MixBetween(p, Deuce(p), 0.0);
    } else {
      if h + 1 >= 3 && a >= 3 {
        GameAdvantage(h + 1, a, p);
      } else {
        GameOrder(h + 1, a, p);
      }
      if h >= 3 && a + 1 >= 3 {
        GameAdvantage(h, a + 1, p);
      } else {
        GameOrder(h, a + 1, p);
      }
    }
    GameOneStep(h, a, p);
    MixBetween(p, Game(h + 1, a, p), Game(h, a + 1, p));
  }

  lemma GameAdvantage(h: int, a: int, p: real)
    requires Unit(p) && !GameOver(h, a) && h >= 3 && a >= 3
    ensures Game(h, a + 1, p) <= Game(h, a, p) <= Game(h + 1, a, p)
  {
    DeuceUnit(p);
    DeuceEquations(p);
    MixBetween(p, 1.0, Deuce(p));
    MixBetween(p, Deuce(p), 0.0);
  }

  lemma DeuceMonotone(p: real, p': real)
    requires Unit(p) && Unit(p') && p <= p'
    ensures Deuce(p) <= Deuce(p')
  {
    DeuceDenominator(p);
    DeuceDenominator(p');
    CrossTerms(p, p');
    var q, q' := 1.0 - p, 1.0 - p';
    OddsGrow(p, q, p', q', p * p, q * q, p' * p', q' * q');
  }

  lemma CrossTerms(p: real, p': real)
    requires p <= p'
    ensures p * (1.0 - p') <= p' * (1.0 - p)
  {
  }

  lemma OddsGrow(p: real, q: real, p': real, q': real, n: real, m: real, n': real, m': real)
    requires p >= 0.0 && q' >= 0.0 && p * q' <= p' * q
    requires n == p * p && m == q * q && n' == p' * p' && m' == q' * q'
    requires n + m > 0.0 && n' + m' > 0.0
    ensures n / (n + m) <= n' / (n' + m')
  {
    ProductNonNegative(p, q');
    SquareGrows(p, q', p', q);
    Ratios(n, m, n', m');
  }

  lemma SquareGrows(x: real, y: real, x': real, y': real)
    requires 0.0 <= x * y <= x' * y'
    ensures (x * x) * (y * y) <= (x' * x') * (y' * y')
  {
    var u, v := x * y, x' * y';
    ProductNonNegative(v - u, v + u);
    assert u * u == (x * x) * (y * y);
    assert v * v == (x' * x') * (y' * y');
  }

  lemma Ratios(n: real, m: real, n': real, m': real)
    requires n + m > 0.0 && n' + m' > 0.0 && n * m' <= n' * m
    ensures n / (n + m) <= n' / (n' + m')
  {
    var d, d' := n + m, n' + m';
    var x, x' := n / d, n' / d';
    assert n * d' <= n' * d;
    assert n == x * d && n' == x' * d';
    assert (x' - x) * (d * d') == n' * d - n * d';
    if x' < x {
      ProductPositive(x - x', d, d');
    }
  }

  lemma ProductPositive(x: real, y: real, z: real)
    requires x > 0.0 && y > 0.0 && z > 0.0
    ensures x * (y * z) > 0.0
  {
    assert y * z > 0.0;
  }

  /** A game value never falls as the point probability rises. */
  lemma {:induction false} GameMonotone(h: int, a: int, p: real, p': real)
    requires Unit(p) && Unit(p') && p <= p'
    ensures Game(h, a, p) <= Game(h, a, p')
    decreases GameRank(h, a)
  {
    if GameOver(h, a) {
    } else if h >= 3 && a >= 3 {
      DeuceMonotone(p, p');
      DeuceUnit(p');
      DeuceEquations(p);
      DeuceEquations(p');
      MixGrows(p, p', 1.0, Deuce(p), 1.0, Deuce(p'));
      MixGrows(p, p', Deuce(p), 0.0, Deuce(p'), 0.0);
    } else {
      GameMonotone(h + 1, a, p, p');
      GameMonotone(h, a + 1, p, p');
      GameOrder(h, a, p');
      MixGrows(p, p', Game(h + 1, a, p), Game(h, a + 1, p), Game(h + 1, a, p'), Game(h, a + 1, p'));
    }
  }

  // ---------------------------------------------------------------- tie-break, set, match

  lemma {:induction false} TiebreakUnit(p: real, h: int, a: int, s: bool)
    requires Unit(p)
    ensures Unit(Tiebreak(p, h, a, s))
    decreases TbRank(h, a)
  {
    if TbDeuce(h, a) {
      TbDeuceIsHalf(p);
    } else if !TbClosed(h, a) {
      var next := TbNextServes(h, a, s);
      TiebreakUnit(p, h + 1, a, next);
      TiebreakUnit(p, h, a + 1, next);
      MixUnit(PointProb(p, s), Tiebreak(p, h + 1, a, next), Tiebreak(p, h, a + 1, next));
    }
  }

  lemma {:induction false} TiebreakOrder(p: real, h: int, a: int, s: bool)
    requires Unit(p) && !TbClosed(h, a)
    ensures Tiebreak(p, h, a + 1, s) <= Tiebreak(p, h + 1, a, s)
    decreases TbRank(h, a)
  {
    TiebreakUnit(p, h + 1, a, s);
    TiebreakUnit(p, h, a + 1, s);
    if !TbClosed(h + 1, a) && !TbClosed(h, a + 1) {
      var next := TbNextServes(h + 1, a, s);
      TiebreakOrder(p, h + 1, a, next);
      TiebreakOrder(p, h, a + 1, next);
      MixBetween(PointProb(p, s), Tiebreak(p, h + 2, a, next), Tiebreak(p, h + 1, a + 1, next));
      MixBetween(PointProb(p, s), Tiebreak(p, h + 1, a + 1, next), Tiebreak(p, h, a + 2, next));
    }
  }

  /** A tie-break point moves the value towards its winner; the serve moves on with it.
      This includes the level scores that a closed form answers. */
  lemma TiebreakPoint(p: real, h: int, a: int, s: bool)
    requires Unit(p) && !TbWon(h, a) && !TbWon(a, h)
    ensures var next := TbNextServes(h, a, s);
            Tiebreak(p, h, a + 1, next) <= Tiebreak(p, h, a, s) <= Tiebreak(p, h + 1, a, next)
  {
    var next := TbNextServes(h, a, s);
    if TbDeuce(h, a) {
      TbDeuceIsHalf(p);
      MixBetween(PointProb(p, next), 1.0, 0.5);
      MixBetween(PointProb(p, next), 0.5, 0.0);
    } else {
      TiebreakOrder(p, h, a, next);
      MixBetween(PointProb(p, s), Tiebreak(p, h + 1, a, next), Tiebreak(p, h, a + 1, next));
    }
  }

  lemma {:induction false} SetUnit(p: real, gh: int, ga: int, server: int, hs: bool)
    requires Unit(p)
    ensures Unit(SetValue(p, gh, ga, server, hs))
    decreases SetRank(gh, ga)
  {
    if SetAtTiebreak(gh, ga) {
      TiebreakUnit(p, 0, 0, server == 1);
    } else if !SetClosed(gh, ga) {
      var t := NextServer(server);
      SetUnit(p, gh + 1, ga, t, t == 1);
      SetUnit(p, gh, ga + 1, t, t == 1);
      MixUnit(PointProb(p, hs), SetValue(p, gh + 1, ga, t, t == 1), SetValue(p, gh, ga + 1, t, t == 1));
    }
  }

  lemma {:induction false} SetOrder(p: real, gh: int, ga: int, server: int)
    requires Unit(p) && !SetClosed(gh, ga)
    ensures SetFor(p, gh, ga + 1, server) <= SetFor(p, gh + 1, ga, server)
    decreases SetRank(gh, ga)
  {
    SetUnit(p, gh + 1, ga, server, server == 1);
    SetUnit(p, gh, ga + 1, server, server == 1);
    if !SetClosed(gh + 1, ga) && !SetClosed(gh, ga + 1) {
      var t := NextServer(server);
      SetOrder(p, gh + 1, ga, t);
      SetOrder(p, gh, ga + 1, t);
      MixBetween(PointProb(p, server == 1), SetFor(p, gh + 2, ga, t), SetFor(p, gh + 1, ga + 1, t));
      MixBetween(PointProb(p, server == 1), SetFor(p, gh + 1, ga + 1, t), SetFor(p, gh, ga + 2, t));
    }
  }

  lemma {:induction false} MatchUnit(p: real, sh: int, sa: int)
    ensures Unit(MatchValue(p, sh, sa))
    decreases MatchRank(sh, sa)
  {
    if sh < SETS_TO_WIN && sa < SETS_TO_WIN {
      LevelSetIsHalf(p, 0);
      MatchStep(p, sh, sa);
      MatchUnit(p, sh + 1, sa);
      MatchUnit(p, sh, sa + 1);
    }
  }

  lemma {:induction false} MatchOrder(p: real, sh: int, sa: int)
    requires sh < SETS_TO_WIN && sa < SETS_TO_WIN
    ensures MatchValue(p, sh, sa + 1) <= MatchValue(p, sh + 1, sa)
    decreases MatchRank(sh, sa)
  {
    MatchUnit(p, sh + 1, sa);
    MatchUnit(p, sh, sa + 1);
    if sh + 1 < SETS_TO_WIN && sa + 1 < SETS_TO_WIN {
      LevelSetIsHalf(p, 0);
      MatchOrder(p, sh + 1, sa);
      MatchOrder(p, sh, sa + 1);
      MatchStep(p, sh + 1, sa);
      MatchStep(p, sh, sa + 1);
    }
  }

  /** Every answer is a probability. */
  lemma WinProbabilityUnit(p: real, s: Score)
    requires Unit(p)
    ensures Unit(WinProbability(p, s)) && Unit(CurrentSet(p, s)) && Unit(CurrentGame(p, s))
  {
    if s.isTiebreak {
      TiebreakUnit(p, TbPointValue(s.homePoints), TbPointValue(s.awayPoints), s.server == 1);
    } else {
      GameUnit(PointValue(s.homePoints), PointValue(s.awayPoints), PointProb(p, s.server == 1));
    }
    var n := NextServer(s.server);
    TiebreakUnit(p, 0, 0, s.server == 1);
    SetUnit(p, s.gamesHome + 1, s.gamesAway, n, n == 1);
    SetUnit(p, s.gamesHome, s.gamesAway + 1, n, n == 1);
    MixUnit(CurrentGame(p, s), SetFor(p, s.gamesHome + 1, s.gamesAway, n), SetFor(p, s.gamesHome, s.gamesAway + 1, n));
    MatchUnit(p, s.setsHome + 1, s.setsAway);
    MatchUnit(p, s.setsHome, s.setsAway + 1);
    MixUnit(CurrentSet(p, s), MatchValue(p, s.setsHome + 1, s.setsAway), MatchValue(p, s.setsHome, s.setsAway + 1));
  }

  // ---------------------------------------------------------------- winning a point

  /** `t` differs from `s` in the current game only. */
  predicate SameMatch(s: Score, t: Score) {
    && t.setsHome == s.setsHome && t.setsAway == s.setsAway
    && t.gamesHome == s.gamesHome && t.gamesAway == s.gamesAway
    && t.isTiebreak == s.isTiebreak && (s.isTiebreak || t.server == s.server)
  }

  /** A better current game carries through the set and the match. */
  lemma BetterGameBetterMatch(p: real, s: Score, t: Score)
    requires Unit(p) && SameMatch(s, t)
    requires CurrentGame(p, s) <= CurrentGame(p, t)
    ensures WinProbability(p, s) <= WinProbability(p, t)
  {
    var gh, ga := s.gamesHome, s.gamesAway;
    assert CurrentSet(p, s) <= CurrentSet(p, t) by {
      if !SetClosed(gh, ga) && !s.isTiebreak {
        var n := NextServer(s.server);
        SetOrder(p, gh, ga, n);
        var x, y := SetFor(p, gh + 1, ga, n), SetFor(p, gh, ga + 1, n);
        SlopeGrows(CurrentGame(p, s), CurrentGame(p, t), x, y);
      }
    }
    if s.setsHome < SETS_TO_WIN && s.setsAway < SETS_TO_WIN {
      MatchOrder(p, s.setsHome, s.setsAway);
      SlopeGrows(CurrentSet(p, s), CurrentSet(p, t),
                 MatchValue(p, s.setsHome + 1, s.setsAway), MatchValue(p, s.setsHome, s.setsAway + 1));
    }
  }

  lemma SlopeGrows(q: real, q': real, x: real, y: real)
    requires q <= q' && x >= y
    ensures Mix(q, x, y) <= Mix(q', x, y)
  {
    ProductNonNegative(q' - q, x - y);
  }

  predicate IsGameScore(s: string) { s in {"0", "15", "30", "40", "A"} }

  /** The score strings (winner's first) after a point that does not end the game. */
  function NextPoints(winner: string, loser: string): (string, string)
    requires IsGameScore(winner) && IsGameScore(loser) && !EndsGame(winner, loser)
  {
    if winner == "0" then ("15", loser)
    else if winner == "15" then ("30", loser)
    else if winner == "30" then ("40", loser)
    else if loser == "40" then ("A", "40")
    else ("40", "40")
  }

  predicate EndsGame(winner: string, loser: string) {
    winner == "A" || (winner == "40" && loser != "40" && loser != "A")
  }

  /** In any game, a point that does not end it never lowers its winner's chances. */
  lemma PointNeverHurts(p: real, s: Score)
    requires Unit(p) && !s.isTiebreak && IsGameScore(s.homePoints) && IsGameScore(s.awayPoints)
    ensures !EndsGame(s.homePoints, s.awayPoints) ==>
              var n := NextPoints(s.homePoints, s.awayPoints);
              WinProbability(p, s) <= WinProbability(p, s.(homePoints := n.0, awayPoints := n.1))
    ensures !EndsGame(s.awayPoints, s.homePoints) ==>
              var n := NextPoints(s.awayPoints, s.homePoints);
              WinProbability(p, s.(awayPoints := n.0, homePoints := n.1)) <= WinProbability(p, s)
  {
    var q := PointProb(p, s.server == 1);
    var h, a := PointValue(s.homePoints), PointValue(s.awayPoints);
    if !GameOver(h, a) {
      if h >= 3 && a >= 3 { GameAdvantage(h, a, q); } else { GameOrder(h, a, q); }
    }
    if !EndsGame(s.homePoints, s.awayPoints) {
      var n := NextPoints(s.homePoints, s.awayPoints);
      var t := s.(homePoints := n.0, awayPoints := n.1);
      assert GameOver(h, a) || CurrentGame(p, t) == Game(h + 1, a, q);
      assert GameWon(h, a) || GameWon(a, h) ==> CurrentGame(p, t) >= CurrentGame(p, s) by {
        GameUnit(PointValue(n.0), PointValue(n.1), q);
      }
      BetterGameBetterMatch(p, s, t);
    }
    if !EndsGame(s.awayPoints, s.homePoints) {
      var n := NextPoints(s.awayPoints, s.homePoints);
      var t := s.(awayPoints := n.0, homePoints := n.1);
      assert GameOver(h, a) || CurrentGame(p, t) == Game(h, a + 1, q);
      assert GameWon(h, a) || GameWon(a, h) ==> CurrentGame(p, t) <= CurrentGame(p, s) by {
        GameUnit(PointValue(n.1), PointValue(n.0), q);
      }
      BetterGameBetterMatch(p, t, s);
    }
  }

  /** The same in a tie-break, where the server may change with the point. */
  lemma TiebreakPointNeverHurts(p: real, s: Score, t: Score, homeWins: bool)
    requires Unit(p) && s.isTiebreak && SameMatch(s, t)
    requires var h, a := TbPointValue(s.homePoints), TbPointValue(s.awayPoints);
             && !TbWon(h, a) && !TbWon(a, h)
             && TbPointValue(t.homePoints) == (if homeWins then h + 1 else h)
             && TbPointValue(t.awayPoints) == (if homeWins then a else a + 1)
             && (t.server == 1 <==> TbNextServes(h, a, s.server == 1))
    ensures if homeWins then WinProbability(p, s) <= WinProbability(p, t) else WinProbability(p, t) <= WinProbability(p, s)
  {
    TiebreakPoint(p, TbPointValue(s.homePoints), TbPointValue(s.awayPoints), s.server == 1);
    if homeWins {
      BetterGameBetterMatch(p, s, t);
    } else {
      BetterGameBetterMatch(p, t, s);
    }
  }
}
