/** The flags agree with the rules of tennis at every score of every match. */
module PointFlagTheorems {
  import opened Wrappers
  import opened Markov
  import opened TennisRules
  import opened PointFlags
  import opened Text

  // ---------------------------------------------------------------- how the feed writes a score

  lemma {:induction false} DecimalDigits(n: nat)
    ensures Decimal(n) != "" && AllDigits(Decimal(n))
    ensures Digits(Decimal(n)) == n
  {
    var s := Decimal(n);
    if n >= 10 {
      DecimalDigits(n / 10);
      assert s[..|s| - 1] == Decimal(n / 10);
    } else {
      assert s[..0] == "";
    }
  }

  const INT64_LIMIT: int := 0x8000_0000_0000_0000

  /** Tie-break strings are read back exactly while they fit the source's integers. */
  lemma TbPointValueDecimal(n: nat)
    requires n < INT64_LIMIT
    ensures TbPointValue(Decimal(n)) == n
  {
    DecimalDigits(n);
    assert IsDigit(Decimal(n)[0]);
  }

  /** Signs are read. */
  lemma TbPointValueSigned(n: nat)
    requires n < INT64_LIMIT
    ensures TbPointValue("+" + Decimal(n)) == n && TbPointValue("-" + Decimal(n)) == -(n as int)
  {
    DecimalDigits(n);
    hide Decimal, Digits;
    assert ("+" + Decimal(n))[1..] == Decimal(n);
    assert ("-" + Decimal(n))[1..] == Decimal(n);
  }

  /** A number that does not fit counts as zero, and so does anything that is no number. */
  lemma TbPointValueTooBig(n: nat)
    requires n >= INT64_LIMIT
    ensures TbPointValue(Decimal(n)) == 0
  {
    DecimalDigits(n);
    hide Decimal, Digits;
    assert IsDigit(Decimal(n)[0]);
  }

  lemma TbPointValueNoNumber(s: string)
    requires s in {"", "+", "-"} || exists i :: 1 <= i < |s| && !IsDigit(s[i])
    ensures TbPointValue(s) == 0
  {
    hide Digits;
    if i :| 1 <= i < |s| && !IsDigit(s[i]) {
      assert Unsigned(s)[if Unsigned(s) == s then i else i - 1] == s[i];
    }
  }

  function PointString(own: nat, other: nat): string {
    if own >= 3 && other >= 3 then (if own > other then "A" else "40")
    else if own == 0 then "0"
    else if own == 1 then "15"
    else if own == 2 then "30"
    else "40"
  }

  function SetNumber(s: State): int { 1 + s.sets.home + s.sets.away }

  /** The row that shows score `s` for a point served by `server` and won by `w`. */
  function RowOf(s: State, server: int, w: Player): Row {
    Row(SetNumber(s), 1 + s.games.home + s.games.away, 1 + s.points.home + s.points.away, server, w.Number(),
        if InTiebreak(s) then Decimal(s.points.home) else PointString(s.points.home, s.points.away),
        if InTiebreak(s) then Decimal(s.points.away) else PointString(s.points.away, s.points.home),
        s.games.home, s.games.away, InTiebreak(s))
  }

  predicate Representable(s: State) {
    s.points.home < INT64_LIMIT && s.points.away < INT64_LIMIT
  }

  // ---------------------------------------------------------------- flags

  lemma CanWinGameExact(s: State, w: Player)
    requires InPlay(s) && !InTiebreak(s)
    ensures CanWinGame(PointString(s.points.home, s.points.away), PointString(s.points.away, s.points.home), w.Number())
            <==> WinsGame(s, w)
  {
  }

  /** What a signal must say when it speaks for `w`. */
  function Expected(s: State, w: Player): SetPointSignal {
    var who := if w.Home? then "home" else "away";
    var where := if InTiebreak(s) then "_tb" else "";
    var what := if WinsMatch(s, w) then "_match_point" else "_set_point";
    SetPointSignal(w.Number(), who + where + what, WinsMatch(s, w))
  }

  /** `signal` is right for score `s`: it is the expected one for the player whose next
      point ends the set (the match, if only match points count), and absent otherwise. */
  ghost predicate SignalExact(s: State, includeSetPoints: bool, signal: Option<SetPointSignal>) {
    && (forall w :: (WinsSet(s, w) && (includeSetPoints || WinsMatch(s, w))) ==> signal == Some(Expected(s, w)))
    && (signal.Some? ==> exists w :: WinsSet(s, w) && (includeSetPoints || WinsMatch(s, w)) && signal.value == Expected(s, w))
  }

  lemma ContextStrings()
    ensures "home" + "" + "_set_point" == "home_set_point" && "away" + "" + "_set_point" == "away_set_point"
    ensures "home" + "" + "_match_point" == "home_match_point" && "away" + "" + "_match_point" == "away_match_point"
    ensures "home" + "_tb" + "_set_point" == "home_tb_set_point" && "away" + "_tb" + "_set_point" == "away_tb_set_point"
    ensures "home" + "_tb" + "_match_point" == "home_tb_match_point"
    ensures "away" + "_tb" + "_match_point" == "away_tb_match_point"
  {
  }

  lemma SetPointExact(s: State, server: int, scorer: Player, includeSetPoints: bool)
    requires InPlay(s) && Representable(s)
    ensures SignalExact(s, includeSetPoints, DetectSetPoint(s.sets.home, s.sets.away, includeSetPoints, RowOf(s, server, scorer)))
  {
    if InTiebreak(s) {
      TbPointValueDecimal(s.points.home);
      TbPointValueDecimal(s.points.away);
    } else {
      CanWinGameExact(s, Home);
      CanWinGameExact(s, Away);
    }
    assert WinsSet(s, Home) ==> !WinsSet(s, Away);
    ContextStrings();
    var signal := DetectSetPoint(s.sets.home, s.sets.away, includeSetPoints, RowOf(s, server, scorer));
    if WinsSet(s, Home) && (includeSetPoints || WinsMatch(s, Home)) {
      assert signal == Some(Expected(s, Home));
    } else if WinsSet(s, Away) && (includeSetPoints || WinsMatch(s, Away)) {
      assert signal == Some(Expected(s, Away));
    } else {
      assert signal == None;
    }
  }

  /** Outside tie-breaks the classifier and the match-point detector agree with the rules. */
  lemma FlagsExactOutsideTiebreak(s: State, server: Player, scorer: Player)
    requires InPlay(s) && !InTiebreak(s)
    ensures var c := ClassifyPoint(s.sets.home, s.sets.away, RowOf(s, server.Number(), scorer));
            && (c.isSetPoint <==> WinsSet(s, Home) || WinsSet(s, Away))
            && (c.isMatchPoint <==> WinsMatch(s, Home) || WinsMatch(s, Away))
            && (c.isBreakPoint <==> WinsGame(s, server.Other()))
    ensures var m := DetectMatchPoint(s.sets.home, s.sets.away, RowOf(s, server.Number(), scorer));
            && (m == Some((1, "home_match_point")) <==> WinsMatch(s, Home))
            && (m == Some((2, "away_match_point")) <==> WinsMatch(s, Away))
            && (m == None <==> !WinsMatch(s, Home) && !WinsMatch(s, Away))
  {
    CanWinGameExact(s, Home);
    CanWinGameExact(s, Away);
  }

  /** In a tie-break, and once a player has two sets, the match-point detector is silent and
      the classifier flags no set or match point; after the match so is the other detector. */
  lemma Silent(setsHome: int, setsAway: int, includeSetPoints: bool, p: Row)
    ensures p.isTiebreak || setsHome >= 2 || setsAway >= 2 ==>
              && DetectMatchPoint(setsHome, setsAway, p) == None
              && !ClassifyPoint(setsHome, setsAway, p).isSetPoint && !ClassifyPoint(setsHome, setsAway, p).isMatchPoint
    ensures setsHome >= 2 || setsAway >= 2 ==> DetectSetPoint(setsHome, setsAway, includeSetPoints, p) == None
  {
  }

  lemma {:induction false} DecimalLength(n: nat)
    ensures |Decimal(n)| == 1 <==> n < 10
    ensures |Decimal(n)| == 2 <==> 10 <= n < 100
  {
    if n >= 10 {
      DecimalLength(n / 10);
      assert n / 10 >= 10 ==> |Decimal(n / 10)| >= 2 by { assert |Decimal(n / 10)| != 0; }
    }
  }

  lemma DecimalForty(n: nat)
    ensures NormalizeScore(Decimal(n)) == "40" <==> n == 40
    ensures NormalizeScore(Decimal(n)) != "A"
  {
    DecimalDigits(n);
    if Decimal(n) == "40" {
      assert "40"[..1] == "4" && "4"[..0] == "";
      assert Digits("4") == 4 && Digits("40") == 40;
    }
    assert Decimal(40) == "40" by { assert Decimal(4) == "4"; }
    assert IsDigit(Decimal(n)[0]) && !IsDigit('A');
  }

  /** In a tie-break the classifier never reports a set or match point, and its break
      point flag, which reads plain counts as game scores, is raised exactly when the
      returner has 40 points and the server does not. */
  lemma ClassifyTiebreak(s: State, server: Player, scorer: Player)
    requires InPlay(s) && InTiebreak(s)
    ensures var c := ClassifyPoint(s.sets.home, s.sets.away, RowOf(s, server.Number(), scorer));
            && !c.isSetPoint && !c.isMatchPoint
            && (c.isBreakPoint <==> s.points.Of(server.Other()) == 40 && s.points.Of(server) != 40)
  {
    DecimalForty(s.points.home);
    DecimalForty(s.points.away);
  }

  // ---------------------------------------------------------------- the set counter

  lemma PlayablePrefix(ws: seq<Player>, n: nat)
    requires Playable(ws) && n <= |ws|
    ensures Playable(ws[..n])
  {
    forall i | 0 <= i < n
      ensures !Over(Play(ws[..n][..i]))
    {
      assert ws[..n][..i] == ws[..i];
    }
  }

  /** What the counter must hold after the row of the last point of `ws`. */
  function CounterAfter(ws: seq<Player>): Counter
    requires ws != []
  {
    var s, w := Play(ws[..|ws| - 1]), ws[|ws| - 1];
    Counter(s.sets.home, s.sets.away, SetNumber(s), s.games.home, s.games.away, w.Number())
  }

  /** The counter reads a set's winner off its last row: the leader, or at six games all
      the winner of the last point. */
  lemma CounterStep(ws: seq<Player>, w: Player, server: int)
    requires Playable(ws + [w]) && ws != []
    ensures Observe(CounterAfter(ws), RowOf(Play(ws), server, w)) == CounterAfter(ws + [w])
  {
    var rest := ws[..|ws| - 1];
    assert (ws + [w])[..|ws|] == ws && (ws + [w])[..|rest|] == rest;
    PlayablePrefix(ws + [w], |rest|);
    assert !Over(Play(rest));
    PlayInPlay(rest);
  }

  /** Games as a feed shows them once the point is over, a finished set's final score included. */
  function ShownGames(s: State, w: Player): Pair {
    if WinsGame(s, w) then s.games.Won(w) else s.games
  }

  function CounterShown(ws: seq<Player>): Counter
    requires ws != []
  {
    var s, w := Play(ws[..|ws| - 1]), ws[|ws| - 1];
    Counter(s.sets.home, s.sets.away, SetNumber(s), ShownGames(s, w).home, ShownGames(s, w).away, w.Number())
  }

  /** The count is as right when rows show the games after their point. */
  lemma CounterStepShown(ws: seq<Player>, w: Player, row: Row)
    requires Playable(ws + [w]) && ws != []
    requires row.setNumber == SetNumber(Play(ws)) && row.scorer == w.Number()
    requires row.homeGames == ShownGames(Play(ws), w).home && row.awayGames == ShownGames(Play(ws), w).away
    ensures Observe(CounterShown(ws), row) == CounterShown(ws + [w])
  {
    var rest := ws[..|ws| - 1];
    assert (ws + [w])[..|ws|] == ws && (ws + [w])[..|rest|] == rest;
    PlayablePrefix(ws + [w], |rest|);
    assert !Over(Play(rest));
    PlayInPlay(rest);
  }

  function CounterAt(ws: seq<Player>, n: nat): Counter
    requires n <= |ws|
  {
    if n == 0 then NewCounter else CounterAfter(ws[..n])
  }

  /** The `n`-th row takes the counter to the true set score of that row, at which the
      detector is right. */
  lemma RowExact(ws: seq<Player>, n: nat, server: int, includeSetPoints: bool)
    requires Playable(ws) && n < |ws| && Representable(Play(ws[..n]))
    ensures var row, c := RowOf(Play(ws[..n]), server, ws[n]), CounterAt(ws, n + 1);
            && Observe(CounterAt(ws, n), row) == c
            && SignalExact(Play(ws[..n]), includeSetPoints, DetectSetPoint(c.setsHome, c.setsAway, includeSetPoints, row))
  {
    PlayablePrefix(ws, n);
    PlayInPlay(ws[..n]);
    SetPointExact(Play(ws[..n]), server, ws[n], includeSetPoints);
    assert ws[..n + 1] == ws[..n] + [ws[n]] && ws[..n + 1][..n] == ws[..n];
    if n > 0 {
      PlayablePrefix(ws, n + 1);
      CounterStep(ws[..n], ws[n], server);
    }
  }
}
