/** Fairness of the tie-break and of a fresh set, and symmetry under exchanging the players. */
module MarkovSymmetry {
  import opened Markov

  // ---------------------------------------------------------------- two points, one serve each

  /** Two points served by different players: the one who serves first does not matter. */
  function PairMix(p: real, both: real, split: real, none: real): real {
    p * (1.0 - p) * both + (p * p + (1.0 - p) * (1.0 - p)) * split + p * (1.0 - p) * none
  }

  lemma MixTwice(p: real, homeFirst: bool, both: real, split: real, none: real)
    ensures var q, q' := PointProb(p, homeFirst), PointProb(p, !homeFirst);
            Mix(q, Mix(q', both, split), Mix(q', split, none)) == PairMix(p, both, split, none)
  {
  }

  lemma MixSame(q: real, x: real)
    ensures Mix(q, x, x) == x
  {
  }

  lemma MixSwap(q: real, x: real, y: real)
    ensures Mix(q, x, y) + Mix(1.0 - q, 1.0 - y, 1.0 - x) == 1.0
  {
  }

  // ---------------------------------------------------------------- tie-break

  lemma TbDeuceIsHalf(p: real)
    ensures Deuce(0.5 * p + 0.5 * (1.0 - p)) == 0.5
  {
  }

  /** One step after a tie-break point, closed scores included: after a point that ends
      the tie-break, a further point would not change the winner. */
  lemma TbOdd(p: real, h: int, a: int, s: bool)
    requires (h + a) % 2 == 1
    requires !TbClosed(h, a) || (TbWon(h, a) && TbWon(h, a + 1)) || (TbWon(a, h) && TbWon(a, h + 1))
    ensures Tiebreak(p, h, a, s) == Mix(PointProb(p, s), Tiebreak(p, h + 1, a, s), Tiebreak(p, h, a + 1, s))
  {
    if TbWon(h, a) {
      MixSame(PointProb(p, s), 1.0);
    } else if TbWon(a, h) {
      MixSame(PointProb(p, s), 0.0);
    }
  }

  /** From an even score the next two points are served one by each player. */
  lemma TbPair(p: real, h: int, a: int, s: bool)
    requires (h + a) % 2 == 0 && !TbClosed(h, a)
    ensures Tiebreak(p, h, a, s)
         == PairMix(p, Tiebreak(p, h + 2, a, !s), Tiebreak(p, h + 1, a + 1, !s), Tiebreak(p, h, a + 2, !s))
  {
    TbOdd(p, h + 1, a, !s);
    TbOdd(p, h, a + 1, !s);
    MixTwice(p, s, Tiebreak(p, h + 2, a, !s), Tiebreak(p, h + 1, a + 1, !s), Tiebreak(p, h, a + 2, !s));
  }

  lemma {:induction false} TiebreakServerIndifferent(p: real, h: int, a: int)
    requires (h + a) % 2 == 0
    ensures Tiebreak(p, h, a, true) == Tiebreak(p, h, a, false)
    decreases TbRank(h, a)
  {
    if !TbClosed(h, a) {
      TbPair(p, h, a, true);
      TbPair(p, h, a, false);
      TiebreakServerIndifferent(p, h + 2, a);
      TiebreakServerIndifferent(p, h + 1, a + 1);
      TiebreakServerIndifferent(p, h, a + 2);
    }
  }

  lemma {:induction false} TiebreakSwap(p: real, h: int, a: int, s: bool)
    ensures Tiebreak(p, h, a, s) + Tiebreak(p, a, h, !s) == 1.0
    decreases TbRank(h, a)
  {
    if TbDeuce(h, a) {
      TbDeuceIsHalf(p);
    } else if !TbClosed(h, a) {
      var next := TbNextServes(h, a, s);
      TiebreakSwap(p, h + 1, a, next);
      TiebreakSwap(p, h, a + 1, next);
      MixSwap(PointProb(p, s), Tiebreak(p, h + 1, a, next), Tiebreak(p, h, a + 1, next));
    }
  }

  lemma TiebreakLevelIsHalf(p: real, n: int, s: bool)
    ensures Tiebreak(p, n, n, s) == 0.5
  {
    TiebreakServerIndifferent(p, n, n);
    TiebreakSwap(p, n, n, s);
  }

  // ---------------------------------------------------------------- set

  /** `SetValue` for whoever serves next; `homeServes` always agrees with `server` in play. */
  function SetFor(p: real, gh: int, ga: int, server: int): real {
    SetValue(p, gh, ga, server, server == 1)
  }

  lemma SetOdd(p: real, gh: int, ga: int, server: int)
    requires (gh + ga) % 2 == 1 && (server == 1 || server == 2)
    requires !SetClosed(gh, ga) || (SetWon(gh, ga) && SetWon(gh, ga + 1)) || (SetWon(ga, gh) && SetWon(ga, gh + 1))
    ensures var t := NextServer(server);
            SetFor(p, gh, ga, server) ==
            Mix(PointProb(p, server == 1), SetFor(p, gh + 1, ga, t), SetFor(p, gh, ga + 1, t))
  {
    if SetWon(gh, ga) {
      MixSame(PointProb(p, server == 1), 1.0);
    } else if SetWon(ga, gh) {
      MixSame(PointProb(p, server == 1), 0.0);
    }
  }

  lemma SetPair(p: real, gh: int, ga: int, server: int)
    requires (gh + ga) % 2 == 0 && !SetClosed(gh, ga) && (server == 1 || server == 2)
    ensures SetFor(p, gh, ga, server)
         == PairMix(p, SetFor(p, gh + 2, ga, server),
                       SetFor(p, gh + 1, ga + 1, server),
                       SetFor(p, gh, ga + 2, server))
  {
    var t := NextServer(server);
    SetOdd(p, gh + 1, ga, t);
    SetOdd(p, gh, ga + 1, t);
    MixTwice(p, server == 1, SetFor(p, gh + 2, ga, server),
             SetFor(p, gh + 1, ga + 1, server), SetFor(p, gh, ga + 2, server));
  }

  lemma {:induction false} SetServerIndifferent(p: real, gh: int, ga: int)
    requires (gh + ga) % 2 == 0
    ensures SetFor(p, gh, ga, 1) == SetFor(p, gh, ga, 2)
    decreases SetRank(gh, ga)
  {
    hide PairMix, Tiebreak, Mix;
    if SetClosed(gh, ga) {
      TiebreakServerIndifferent(p, 0, 0);
    } else {
      SetPair(p, gh, ga, 1);
      SetPair(p, gh, ga, 2);
      SetServerIndifferent(p, gh + 2, ga);
      SetServerIndifferent(p, gh + 1, ga + 1);
      SetServerIndifferent(p, gh, ga + 2);
    }
  }

  lemma {:induction false} SetValueSwap(p: real, gh: int, ga: int, server: int)
    requires server == 1 || server == 2
    ensures SetValue(p, gh, ga, server, server == 1) + SetValue(p, ga, gh, 3 - server, server == 2) == 1.0
    decreases SetRank(gh, ga)
  {
    if SetAtTiebreak(gh, ga) {
      TiebreakSwap(p, 0, 0, server == 1);
    } else if !SetClosed(gh, ga) {
      var t := NextServer(server);
      SetValueSwap(p, gh + 1, ga, t);
      SetValueSwap(p, gh, ga + 1, t);
      MixSwap(PointProb(p, server == 1), SetValue(p, gh + 1, ga, t, t == 1), SetValue(p, gh, ga + 1, t, t == 1));
    }
  }

  /** A level set is an even bet for either server: in particular a fresh one. */
  lemma LevelSetIsHalf(p: real, g: int)
    ensures SetValue(p, g, g, 1, true) == SetValue(p, g, g, 2, false) == 0.5
  {
    SetServerIndifferent(p, g, g);
    SetValueSwap(p, g, g, 1);
  }

  /** The code does not treat seven games to six as a finished set: it plays on, to a win at
      eight to six or another tie-break at seven all. */
  lemma SevenSixPlaysOn(p: real, server: int, homeServes: bool)
    ensures SetValue(p, 7, 6, server, homeServes) == Mix(PointProb(p, homeServes), 1.0, 0.5)
  {
    var t := NextServer(server);
    TiebreakLevelIsHalf(p, 0, t == 1);
    SevenAll(p, 7, 6, t);
  }

  lemma SevenAll(p: real, gh: int, ga: int, server: int)
    requires gh == 7 && ga == 6
    ensures SetFor(p, gh + 1, ga, server) == 1.0
    ensures SetFor(p, gh, ga + 1, server) == Tiebreak(p, 0, 0, server == 1)
  {
  }

  // ---------------------------------------------------------------- match

  lemma MatchLayer(p: real)
    ensures MatchValue(p, 0, 0) == 0.5 && MatchValue(p, 1, 1) == 0.5
    ensures MatchValue(p, 1, 0) == 0.75 && MatchValue(p, 0, 1) == 0.25
  {
    LevelSetIsHalf(p, 0);
    assert FreshSet(p) == 0.5;
    MatchStep(p, 1, 1);
    MatchStep(p, 1, 0);
    MatchStep(p, 0, 1);
    MatchStep(p, 0, 0);
  }

  lemma MatchStep(p: real, sh: int, sa: int)
    requires sh < SETS_TO_WIN && sa < SETS_TO_WIN && FreshSet(p) == 0.5
    ensures MatchValue(p, sh, sa) == 0.5 * MatchValue(p, sh + 1, sa) + 0.5 * MatchValue(p, sh, sa + 1)
  {
  }

  lemma {:induction false} MatchSwap(p: real, sh: int, sa: int)
    requires sh < SETS_TO_WIN || sa < SETS_TO_WIN
    ensures MatchValue(p, sh, sa) + MatchValue(p, sa, sh) == 1.0
    decreases MatchRank(sh, sa)
  {
    if sh < SETS_TO_WIN && sa < SETS_TO_WIN {
      LevelSetIsHalf(p, 0);
      MatchStep(p, sh, sa);
      MatchStep(p, sa, sh);
      MatchSwap(p, sh + 1, sa);
      MatchSwap(p, sh, sa + 1);
    }
  }

  // ---------------------------------------------------------------- player exchange

  lemma {:induction false} GameSwap(h: int, a: int, p: real)
    ensures Game(h, a, p) + Game(a, h, 1.0 - p) == 1.0
    decreases GameRank(h, a)
  {
    if GameOver(h, a) {
    } else if h >= 3 && a >= 3 {
      DeuceSwap(p);
    } else {
      GameSwap(h + 1, a, p);
      GameSwap(h, a + 1, p);
      MixSwap(p, Game(h + 1, a, p), Game(h, a + 1, p));
    }
  }

  lemma DeuceSwap(p: real)
    ensures Deuce(p) + Deuce(1.0 - p) == 1.0
    ensures var d := p * p + (1.0 - p) * (1.0 - p);
            d > 0.0 && p + (1.0 - p) * (p * p) / d + (1.0 - p) * ((1.0 - p) * (1.0 - p)) / d == 1.0
  {
    DeuceDenominator(p);
    var q := 1.0 - p;
    var d := p * p + q * q;
    assert (1.0 - q) == p;
    assert p * p / d + q * q / d == (p * p + q * q) / d == 1.0;
    assert q * (p * p) / d + q * (q * q) / d == (q * (p * p) + q * (q * q)) / d;
    assert q * (p * p) + q * (q * q) == q * d;
    assert q * d / d == q;
  }

  /** The same score with home and away exchanged. */
  function Swap(s: Score): Score {
    Score(s.setsAway, s.setsHome, s.gamesAway, s.gamesHome, s.awayPoints, s.homePoints, 3 - s.server, s.isTiebreak)
  }

  lemma CurrentGameSwap(p: real, s: Score)
    requires s.server == 1 || s.server == 2
    ensures CurrentGame(p, s) + CurrentGame(p, Swap(s)) == 1.0
  {
    if s.isTiebreak {
      TiebreakSwap(p, TbPointValue(s.homePoints), TbPointValue(s.awayPoints), s.server == 1);
    } else {
      GameSwap(PointValue(s.homePoints), PointValue(s.awayPoints), PointProb(p, s.server == 1));
    }
  }

  lemma CurrentSetSwap(p: real, s: Score)
    requires s.server == 1 || s.server == 2
    ensures CurrentSet(p, s) + CurrentSet(p, Swap(s)) == 1.0
  {
    var gh, ga := s.gamesHome, s.gamesAway;
    CurrentGameSwap(p, s);
    if SetWon(gh, ga) || SetWon(ga, gh) || s.isTiebreak {
    } else if SetAtTiebreak(gh, ga) {
      TiebreakSwap(p, 0, 0, s.server == 1);
    } else {
      var t := NextServer(s.server);
      SetValueSwap(p, gh + 1, ga, t);
      SetValueSwap(p, gh, ga + 1, t);
      MixSwap(CurrentGame(p, s), SetValue(p, gh + 1, ga, t, t == 1), SetValue(p, gh, ga + 1, t, t == 1));
    }
  }

  /** The two players' chances add to one exactly when the score does not say that
      both have already won; the current set may be at any score, reachable or not. */
  lemma WinProbabilitySwap(p: real, s: Score)
    requires s.server == 1 || s.server == 2
    ensures WinProbability(p, s) + WinProbability(p, Swap(s)) == 1.0
            <==> !(s.setsHome >= SETS_TO_WIN && s.setsAway >= SETS_TO_WIN)
  {
    if s.setsHome < SETS_TO_WIN && s.setsAway < SETS_TO_WIN {
      CurrentSetSwap(p, s);
      MatchSwap(p, s.setsHome + 1, s.setsAway);
      MatchSwap(p, s.setsHome, s.setsAway + 1);
      MixSwap(CurrentSet(p, s), MatchValue(p, s.setsHome + 1, s.setsAway), MatchValue(p, s.setsHome, s.setsAway + 1));
    }
  }

  /** One minus the home price is the away player's own price, clamp included. */
  lemma FairValueSwap(p: real, s: Score)
    requires s.server == 1 || s.server == 2
    requires s.setsHome < SETS_TO_WIN || s.setsAway < SETS_TO_WIN
    ensures 1.0 - FairValue(p, s) == FairValue(p, Swap(s))
    ensures 1.0 - SetWinProbability(p, s) == SetWinProbability(p, Swap(s))
  {
    WinProbabilitySwap(p, s);
    CurrentSetSwap(p, s);
  }
}
