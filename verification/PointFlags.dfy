/** Set, match and break point detection on the score feed's rows. */
module PointFlags {
  import opened Wrappers
  import opened Markov

  const GAMES_PER_SET: int := 6

  /** A row of the point feed. */
  datatype Row = Row(
    setNumber: int, gameNumber: int, pointNumber: int,
    server: int, scorer: int,
    homePoints: string, awayPoints: string,
    homeGames: int, awayGames: int,
    isTiebreak: bool)

  function NormalizeScore(s: string): string {
    if s in {"0", "15", "30", "40", "A"} then s else ""
  }

  predicate CanWinGame(homePts: string, awayPts: string, player: int) {
    var h, a := NormalizeScore(homePts), NormalizeScore(awayPts);
    if player == 1 then h == "A" || (h == "40" && a != "40" && a != "A")
    else a == "A" || (a == "40" && h != "40" && h != "A")
  }

  datatype SetPointSignal = SetPointSignal(winner: int, context: string, isMatchPoint: bool)

  function DetectSetPoint(setsHome: int, setsAway: int, includeSetPoints: bool, p: Row): Option<SetPointSignal> {
    var homeNeedsSet, awayNeedsSet := SETS_TO_WIN - setsHome, SETS_TO_WIN - setsAway;
    if homeNeedsSet <= 0 || awayNeedsSet <= 0 then None
    else if p.isTiebreak then
      var h, a := TbPointValue(p.homePoints), TbPointValue(p.awayPoints);
      var homeCanWinSet, awayCanWinSet := h >= 6 && h - a >= 1, a >= 6 && a - h >= 1;
      var homeIsMP, awayIsMP := homeCanWinSet && homeNeedsSet == 1, awayCanWinSet && awayNeedsSet == 1;
      if !homeCanWinSet && !awayCanWinSet then None
      else if !includeSetPoints && !homeIsMP && !awayIsMP then None
      else
        var context :=
          if homeIsMP then "home_tb_match_point"
          else if awayIsMP then "away_tb_match_point"
          else if homeCanWinSet then "home_tb_set_point"
          else "away_tb_set_point";
        Some(SetPointSignal(if homeCanWinSet then 1 else 2, context, homeIsMP || awayIsMP))
    else
      var homeCanWinSet :=
        CanWinGame(p.homePoints, p.awayPoints, 1) && p.homeGames >= GAMES_PER_SET - 1 && p.homeGames > p.awayGames;
      var awayCanWinSet :=
        CanWinGame(p.homePoints, p.awayPoints, 2) && p.awayGames >= GAMES_PER_SET - 1 && p.awayGames > p.homeGames;
      var homeIsMP, awayIsMP := homeCanWinSet && homeNeedsSet == 1, awayCanWinSet && awayNeedsSet == 1;
      if !homeCanWinSet && !awayCanWinSet then None
      else if !includeSetPoints && !homeIsMP && !awayIsMP then None
      else
        var context :=
          if homeIsMP then "home_match_point"
          else if awayIsMP then "away_match_point"
          else if homeCanWinSet then "home_set_point"
          else "away_set_point";
        Some(SetPointSignal(if homeCanWinSet then 1 else 2, context, homeIsMP || awayIsMP))
  }

  /** The match-point strategy ignores tie-breaks. */
  function DetectMatchPoint(setsHome: int, setsAway: int, p: Row): Option<(int, string)> {
    var homeNeedsSet, awayNeedsSet := SETS_TO_WIN - setsHome, SETS_TO_WIN - setsAway;
    if homeNeedsSet <= 0 || awayNeedsSet <= 0 || p.isTiebreak then None
    else
      var homeMatchPoint :=
        homeNeedsSet == 1 && CanWinGame(p.homePoints, p.awayPoints, 1)
        && p.homeGames >= GAMES_PER_SET - 1 && p.homeGames > p.awayGames;
      var awayMatchPoint :=
        awayNeedsSet == 1 && CanWinGame(p.homePoints, p.awayPoints, 2)
        && p.awayGames >= GAMES_PER_SET - 1 && p.awayGames > p.homeGames;
      if !homeMatchPoint && !awayMatchPoint then None
      else if homeMatchPoint then Some((1, "home_match_point"))
      else Some((2, "away_match_point"))
  }

  datatype PointClassification = PointClassification(isSetPoint: bool, isMatchPoint: bool, isBreakPoint: bool)

  function ClassifyPoint(setsHome: int, setsAway: int, p: Row): PointClassification {
    var homeCanWinGame := CanWinGame(p.homePoints, p.awayPoints, 1);
    var awayCanWinGame := CanWinGame(p.homePoints, p.awayPoints, 2);
    var c := PointClassification(false, false, (p.server == 1 && awayCanWinGame) || (p.server == 2 && homeCanWinGame));
    var homeNeedsSet, awayNeedsSet := SETS_TO_WIN - setsHome, SETS_TO_WIN - setsAway;
    if p.isTiebreak || homeNeedsSet <= 0 || awayNeedsSet <= 0 then c
    else
      var homeCanWinSet := homeCanWinGame && p.homeGames >= GAMES_PER_SET - 1 && p.homeGames > p.awayGames;
      var awayCanWinSet := awayCanWinGame && p.awayGames >= GAMES_PER_SET - 1 && p.awayGames > p.homeGames;
      if !homeCanWinSet && !awayCanWinSet then c
      else c.(isSetPoint := true,
              isMatchPoint := (homeCanWinSet && homeNeedsSet == 1) || (awayCanWinSet && awayNeedsSet == 1))
  }

  // ---------------------------------------------------------------- counting sets from rows

  /** Sets won so far, kept from the rows alone. */
  datatype Counter = Counter(
    setsHome: int, setsAway: int,
    lastSetNum: int, lastHomeGames: int, lastAwayGames: int, lastScorer: int)

  const NewCounter := Counter(0, 0, 0, 0, 0, 0)

  /** 1 or 2 for the player the last row of a set speaks for, 0 if it does not say. */
  function LastRowWinner(c: Counter): int {
    if c.lastHomeGames > c.lastAwayGames then 1
    else if c.lastAwayGames > c.lastHomeGames then 2
    else if c.lastScorer == 0 then 0
    else if c.lastScorer == 1 then 1
    else 2
  }

  function Observe(c: Counter, p: Row): Counter {
    var newSet := p.setNumber > c.lastSetNum && c.lastSetNum > 0;
    Counter(
      c.setsHome + (if newSet && LastRowWinner(c) == 1 then 1 else 0),
      c.setsAway + (if newSet && LastRowWinner(c) == 2 then 1 else 0),
      p.setNumber, p.homeGames, p.awayGames, p.scorer)
  }

  /** What a row is known by; the source joins the three numbers with colons. */
  type Key = (int, int, int)

  function KeyOf(p: Row): Key { (p.setNumber, p.gameNumber, p.pointNumber) }

  /** The per-match state a strategy keeps between rows. */
  class MatchTracker {
    var setsHome: int
    var setsAway: int
    var lastSetNum: int
    var lastHomeGames: int
    var lastAwayGames: int
    var lastScorer: int
    var pointsSinceFire: int
    var seenPoints: set<Key>

    function View(): Counter
      reads this
    {
      Counter(setsHome, setsAway, lastSetNum, lastHomeGames, lastAwayGames, lastScorer)
    }

    constructor ()
      ensures View() == NewCounter && pointsSinceFire == 0 && seenPoints == {}
    {
      seenPoints := {};
      setsHome, setsAway := 0, 0;
      lastSetNum, lastHomeGames, lastAwayGames, lastScorer, pointsSinceFire := 0, 0, 0, 0, 0;
    }

    method UpdateMatchState(p: Row)
      modifies this
      ensures View() == Observe(old(View()), p)
      ensures pointsSinceFire == old(pointsSinceFire) + 1 && seenPoints == old(seenPoints)
    {
      if p.setNumber > lastSetNum && lastSetNum > 0 {
        if lastHomeGames > lastAwayGames {
          setsHome := setsHome + 1;
        } else if lastAwayGames > lastHomeGames {
          setsAway := setsAway + 1;
        } else if lastScorer != 0 {
          if lastScorer == 1 {
            setsHome := setsHome + 1;
          } else {
            setsAway := setsAway + 1;
          }
        }
      }
      lastSetNum := p.setNumber;
      lastHomeGames := p.homeGames;
      lastAwayGames := p.awayGames;
      lastScorer := p.scorer;
      pointsSinceFire := pointsSinceFire + 1;
    }

    /** A row arrives: count it, then look for a set point unless it was seen before. */
    method OnPoint(p: Row, includeSetPoints: bool) returns (signal: Option<SetPointSignal>)
      modifies this
      ensures View() == Observe(old(View()), p) && seenPoints == old(seenPoints) + {KeyOf(p)}
      ensures signal == if KeyOf(p) in old(seenPoints) then None else DetectSetPoint(setsHome, setsAway, includeSetPoints, p)
    {
      UpdateMatchState(p);
      var pointKey := KeyOf(p);
      if pointKey in seenPoints {
        return None;
      }
      seenPoints := seenPoints + {pointKey};
      signal := DetectSetPoint(setsHome, setsAway, includeSetPoints, p);
    }
  }
}
