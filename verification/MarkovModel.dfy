/** The memoising model.  Four tables cache values across queries; the keys of two of
    them leave out arguments (`p` and the point total) that the callers derive from the
    key.  Every method returns the value of the plain recursion in `Markov`, whatever
    the tables hold when it is called.
 */
module MarkovModel {
  import opened Markov

  function BoolToInt(b: bool): int { if b then 1 else 0 }

  class Model {
    const pServe: real
    const pReturn: real
    var gameMemo: map<(int, int, int), real>
    var setMemo: map<(int, int, int, int), real>
    var matchMemo: map<(int, int), real>
    var tbMemo: map<(int, int, int), real>

    /** Each table entry is the plain recursion at its key. */
    ghost predicate Valid()
      reads this
    {
      && pReturn == 1.0 - pServe
      && (forall k <- gameMemo :: gameMemo[k] == Game(k.0, k.1, PointProb(pServe, k.2 == 1)))
      && (forall k <- setMemo :: setMemo[k] == SetValue(pServe, k.0, k.1, k.2 + 1, k.3 == 1))
      && (forall k <- matchMemo :: matchMemo[k] == MatchValue(pServe, k.0, k.1))
      && (forall k <- tbMemo :: tbMemo[k] == Tiebreak(pServe, k.0, k.1, k.2 == 1))
    }

    constructor (pServe: real)
      ensures Valid() && this.pServe == pServe
      ensures gameMemo == map[] && setMemo == map[] && matchMemo == map[] && tbMemo == map[]
    {
      this.pServe, pReturn := pServe, 1.0 - pServe;
      gameMemo, setMemo, matchMemo, tbMemo := map[], map[], map[], map[];
    }

    method GameWinProbMemoized(h: int, a: int, pIsServe: bool) returns (r: real)
      requires Valid()
      modifies this`gameMemo
      ensures Valid()
      ensures r == Game(h, a, PointProb(pServe, pIsServe))
    {
      var key := (h, a, BoolToInt(pIsServe));
      if key in gameMemo {
        return gameMemo[key];
      }
      var p := pServe;
      if !pIsServe {
        p := pReturn;
      }
      r := Game(h, a, p);
      gameMemo := gameMemo[key := r];
    }

    /** `p` and `totalPoints` are redundant: both follow from the rest of the state. */
    method TbWinProbMemoized(h: int, a: int, p: real, homeServing: bool, totalPoints: int) returns (r: real)
      requires Valid()
      requires p == PointProb(pServe, homeServing) && totalPoints == h + a
      modifies this`tbMemo
      ensures Valid()
      ensures r == Tiebreak(pServe, h, a, homeServing)
      decreases TbRank(h, a)
    {
      if h >= 7 && h - a >= 2 {
        return 1.0;
      }
      if a >= 7 && a - h >= 2 {
        return 0.0;
      }
      if h >= 7 && a >= 7 && h == a {
        var pAvg := 0.5 * pServe + 0.5 * pReturn;
        return Deuce(pAvg);
      }
      var key := (h, a, BoolToInt(homeServing));
      if key in tbMemo {
        return tbMemo[key];
      }
      var nextHomeServing := if totalPoints % 2 == 0 then !homeServing else homeServing;
      var nextP := pServe;
      if !nextHomeServing {
        nextP := pReturn;
      }
      var x := TbWinProbMemoized(h + 1, a, nextP, nextHomeServing, totalPoints + 1);
      var y := TbWinProbMemoized(h, a + 1, nextP, nextHomeServing, totalPoints + 1);
      r := Mix(p, x, y);
      tbMemo := tbMemo[key := r];
    }

    method TiebreakWinProb(homePoints: string, awayPoints: string, homeServing: bool) returns (r: real)
      requires Valid()
      modifies this`tbMemo
      ensures Valid()
      ensures r == Tiebreak(pServe, TbPointValue(homePoints), TbPointValue(awayPoints), homeServing)
    {
      var h := TbPointValue(homePoints);
      var a := TbPointValue(awayPoints);
      var p := pServe;
      if !homeServing {
        p := pReturn;
      }
      r := TbWinProbMemoized(h, a, p, homeServing, h + a);
    }

    method GameWinProb(homePoints: string, awayPoints: string, homeServing: bool, isTiebreak: bool) returns (r: real)
      requires Valid()
      modifies this`gameMemo, this`tbMemo
      ensures Valid()
      ensures r == if isTiebreak
                   then Tiebreak(pServe, TbPointValue(homePoints), TbPointValue(awayPoints), homeServing)
                   else Game(PointValue(homePoints), PointValue(awayPoints), PointProb(pServe, homeServing))
    {
      if isTiebreak {
        r := TiebreakWinProb(homePoints, awayPoints, homeServing);
      } else {
        r := GameWinProbMemoized(PointValue(homePoints), PointValue(awayPoints), homeServing);
      }
    }

    method SetWinProbCached(gamesHome: int, gamesAway: int, server: int, pIsServe: bool) returns (r: real)
      requires Valid()
      modifies this`setMemo, this`tbMemo
      ensures Valid()
      ensures r == SetValue(pServe, gamesHome, gamesAway, server, pIsServe)
      decreases SetRank(gamesHome, gamesAway)
    {
      hide Tiebreak, Game, MatchValue, Mix;
      if gamesHome >= 6 && gamesHome - gamesAway >= 2 {
        return 1.0;
      }
      if gamesAway >= 6 && gamesAway - gamesHome >= 2 {
        return 0.0;
      }
      if gamesHome >= 6 && gamesAway >= 6 && gamesHome == gamesAway {
        assert TbPointValue("0") == 0 by { assert Digits("0") == 0; }
        r := TiebreakWinProb("0", "0", server == 1);
        return;
      }
      var key := (gamesHome, gamesAway, server - 1, BoolToInt(pIsServe));
      if key in setMemo {
        return setMemo[key];
      }
      var pHomeGame := pServe;
      if !pIsServe {
        pHomeGame := pReturn;
      }
      var nextServer := 2;
      if server == 2 {
        nextServer := 1;
      }
      var x := SetWinProbCached(gamesHome + 1, gamesAway, nextServer, nextServer == 1);
      var y := SetWinProbCached(gamesHome, gamesAway + 1, nextServer, nextServer == 1);
      r := Mix(pHomeGame, x, y);
      setMemo := setMemo[key := r];
    }

    method SetWinProb(gamesHome: int, gamesAway: int, pHomeGame: real, server: int, isTiebreak: bool) returns (r: real)
      requires Valid()
      modifies this`setMemo, this`tbMemo
      ensures Valid()
      ensures r == SetFromGame(pServe, gamesHome, gamesAway, pHomeGame, server, isTiebreak)
    {
      if gamesHome >= 6 && gamesHome - gamesAway >= 2 {
        return 1.0;
      }
      if gamesAway >= 6 && gamesAway - gamesHome >= 2 {
        return 0.0;
      }
      if isTiebreak {
        return pHomeGame;
      }
      if gamesHome >= 6 && gamesAway >= 6 && gamesHome == gamesAway {
        assert TbPointValue("0") == 0 by { assert Digits("0") == 0; }
        r := TiebreakWinProb("0", "0", server == 1);
        return;
      }
      var nextServer := 2;
      if server == 2 {
        nextServer := 1;
      }
      var x := SetWinProbCached(gamesHome + 1, gamesAway, nextServer, nextServer == 1);
      var y := SetWinProbCached(gamesHome, gamesAway + 1, nextServer, nextServer == 1);
      r := Mix(pHomeGame, x, y);
    }

    method MatchWinProbFromSetScore(sH: int, sA: int) returns (r: real)
      requires Valid()
      modifies this`matchMemo, this`setMemo, this`tbMemo
      ensures Valid()
      ensures r == MatchValue(pServe, sH, sA)
      decreases MatchRank(sH, sA)
    {
      if sH >= SETS_TO_WIN {
        return 1.0;
      }
      if sA >= SETS_TO_WIN {
        return 0.0;
      }
      var key := (sH, sA);
      if key in matchMemo {
        return matchMemo[key];
      }
      var first := SetWinProbCached(0, 0, 1, true);
      var second := SetWinProbCached(0, 0, 2, false);
      var pSet := 0.5 * first + 0.5 * second;
      var x := MatchWinProbFromSetScore(sH + 1, sA);
      var y := MatchWinProbFromSetScore(sH, sA + 1);
      r := Mix(pSet, x, y);
      matchMemo := matchMemo[key := r];
    }

    method WinProbability(s: Score) returns (r: real)
      requires Valid()
      modifies this
      ensures Valid()
      ensures r == Markov.WinProbability(pServe, s)
    {
      if s.setsHome >= SETS_TO_WIN {
        return 1.0;
      }
      if s.setsAway >= SETS_TO_WIN {
        return 0.0;
      }
      var pHomeGame := GameWinProb(s.homePoints, s.awayPoints, s.server == 1, s.isTiebreak);
      var pHomeSet := SetWinProb(s.gamesHome, s.gamesAway, pHomeGame, s.server, s.isTiebreak);
      var pWinSet := MatchWinProbFromSetScore(s.setsHome + 1, s.setsAway);
      var pLoseSet := MatchWinProbFromSetScore(s.setsHome, s.setsAway + 1);
      r := Mix(pHomeSet, pWinSet, pLoseSet);
    }

    method FairValue(s: Score) returns (r: real)
      requires Valid()
      modifies this
      ensures Valid()
      ensures r == Markov.FairValue(pServe, s)
    {
      var p := WinProbability(s);
      r := Clamp(p);
    }

    method SetWinProbability(s: Score) returns (r: real)
      requires Valid()
      modifies this
      ensures Valid()
      ensures r == Markov.SetWinProbability(pServe, s)
    {
      var pHomeGame := GameWinProb(s.homePoints, s.awayPoints, s.server == 1, s.isTiebreak);
      var p := SetWinProb(s.gamesHome, s.gamesAway, pHomeGame, s.server, s.isTiebreak);
      r := Clamp(p);
    }
  }

  /** What a strategy may ask of a model. */
  datatype Query = Win(score: Score) | Fair(score: Score) | SetFair(score: Score)

  /** The plain answer. */
  function Answer(pServe: real, q: Query): real {
    match q
    case Win(s) => Markov.WinProbability(pServe, s)
    case Fair(s) => Markov.FairValue(pServe, s)
    case SetFair(s) => Markov.SetWinProbability(pServe, s)
  }

  method Ask(model: Model, q: Query) returns (r: real)
    requires model.Valid()
    modifies model
    ensures model.Valid() && r == Answer(model.pServe, q)
    ensures q.Win? ==> r == Markov.WinProbability(model.pServe, q.score)
    ensures q.Fair? ==> r == Markov.FairValue(model.pServe, q.score)
    ensures q.SetFair? ==> r == Markov.SetWinProbability(model.pServe, q.score)
  {
    match q
    case Win(s) => r := model.WinProbability(s);
    case Fair(s) => r := model.FairValue(s);
    case SetFair(s) => r := model.SetWinProbability(s);
  }

  /** Any sequence of queries of the three kinds against one shared model, whatever it was
      asked before, answers each of them as a model built for that query alone would. */
  method SharedModelAnswers(shared: Model, queries: seq<Query>) returns (answers: seq<real>, alone: seq<real>)
    requires shared.Valid()
    modifies shared
    ensures shared.Valid()
    ensures answers == alone
    ensures |answers| == |queries|
    ensures forall i :: 0 <= i < |queries| ==> answers[i] == Answer(shared.pServe, queries[i])
  {
    hide Answer;
    answers, alone := [], [];
    for n := 0 to |queries|
      invariant shared.Valid()
      invariant |answers| == n && answers == alone
      invariant forall i :: 0 <= i < n ==> answers[i] == Answer(shared.pServe, queries[i])
    {
      var ownModel := new Model(shared.pServe);
      var x := Ask(shared, queries[n]);
      var y := Ask(ownModel, queries[n]);
      answers, alone := answers + [x], alone + [y];
    }
  }
}
