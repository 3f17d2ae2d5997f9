/** The hierarchical Markov chain for a best-of-three tennis match, as plain
    recursions: point -> game (or tie-break) -> set -> match.  Every value is the
    probability that the home player wins, given `pServe`, the probability that the
    server wins a point.  `MarkovModel.Model` computes the same values with memo tables.
 */
module Markov {

  const SETS_TO_WIN: int := 2

  /** The arguments of a win-probability query.  Points are the feed's strings. */
  datatype Score = Score(
    setsHome: int, setsAway: int,
    gamesHome: int, gamesAway: int,
    homePoints: string, awayPoints: string,
    server: int, isTiebreak: bool)

  /** The expectation of a two-way split: `x` with probability `q`, else `y`. */
  function Mix(q: real, x: real, y: real): real {
    q * x + (1.0 - q) * y
  }

  /** Probability that home wins a point (or, in the set layer, a game). */
  function PointProb(pServe: real, homeServes: bool): real {
    if homeServes then pServe else 1.0 - pServe
  }

  // ---------------------------------------------------------------- game

  lemma DeuceDenominator(p: real)
    ensures p * p + (1.0 - p) * (1.0 - p) > 0.0
  {
    var d := 2.0 * p - 1.0;
    assert d * d >= 0.0;
    assert 2.0 * (p * p + (1.0 - p) * (1.0 - p)) == d * d + 1.0;
  }

  /** Closed form for winning from deuce. */
  function Deuce(p: real): real {
    DeuceDenominator(p);
    p * p / (p * p + (1.0 - p) * (1.0 - p))
  }

  predicate GameWon(h: int, a: int) { h >= 4 && h - a >= 2 }

  predicate GameOver(h: int, a: int) { GameWon(h, a) || GameWon(a, h) }

  function GameRank(h: int, a: int): nat {
    if GameOver(h, a) || (h >= 3 && a >= 3) then 0 else 8 - h - a
  }

  /** P(home wins the game) from point counts `h`-`a`, winning each point with `p`. */
  function Game(h: int, a: int, p: real): real
    decreases GameRank(h, a)
  {
    if GameWon(h, a) then 1.0
    else if GameWon(a, h) then 0.0
    else if h >= 3 && a >= 3 then
      DeuceDenominator(p);
      if h == a then Deuce(p)
      else if h == a + 1 then p * 1.0 + (1.0 - p) * (p * p) / (p * p + (1.0 - p) * (1.0 - p))
      else p * (p * p) / (p * p + (1.0 - p) * (1.0 - p))
    else Mix(p, Game(h + 1, a, p), Game(h, a + 1, p))
  }

  // ---------------------------------------------------------------- tie-break

  predicate TbWon(h: int, a: int) { h >= 7 && h - a >= 2 }

  /** Level at seven or more: answered by a closed form. */
  predicate TbDeuce(h: int, a: int) { h >= 7 && a >= 7 && h == a }

  predicate TbClosed(h: int, a: int) { TbWon(h, a) || TbWon(a, h) || TbDeuce(h, a) }

  function TbRank(h: int, a: int): nat {
    if TbClosed(h, a) then 0
    else if h >= 7 || a >= 7 then 1
    else 14 - h - a
  }

  /** The serve changes after the first point and then after every second one. */
  predicate TbNextServes(h: int, a: int, homeServes: bool) {
    if (h + a) % 2 == 0 then !homeServes else homeServes
  }

  /** P(home wins the tie-break) at `h`-`a` when `homeServes` says who serves next. */
  function Tiebreak(pServe: real, h: int, a: int, homeServes: bool): real
    decreases TbRank(h, a), pServe  // naming pServe keeps the verifier from unrolling literal scores
  {
    if TbWon(h, a) then 1.0
    else if TbWon(a, h) then 0.0
    else if TbDeuce(h, a) then Deuce(0.5 * pServe + 0.5 * (1.0 - pServe))
    else
      var next := TbNextServes(h, a, homeServes);
      Mix(PointProb(pServe, homeServes), Tiebreak(pServe, h + 1, a, next), Tiebreak(pServe, h, a + 1, next))
  }

  // ---------------------------------------------------------------- set

  predicate SetWon(gh: int, ga: int) { gh >= 6 && gh - ga >= 2 }

  predicate SetAtTiebreak(gh: int, ga: int) { gh >= 6 && ga >= 6 && gh == ga }

  predicate SetClosed(gh: int, ga: int) { SetWon(gh, ga) || SetWon(ga, gh) || SetAtTiebreak(gh, ga) }

  function SetRank(gh: int, ga: int): nat {
    if SetClosed(gh, ga) then 0
    else if gh >= 6 || ga >= 6 then 1
    else 12 - gh - ga
  }

  function NextServer(server: int): int { if server == 2 then 1 else 2 }

  /** P(home wins the set) from `gh`-`ga` games at the start of a game.  Games to come
      are won with `pServe` or its complement directly, not with the game recursion. */
  function SetValue(pServe: real, gh: int, ga: int, server: int, homeServes: bool): real
    decreases SetRank(gh, ga), pServe
  {
    if SetWon(gh, ga) then 1.0
    else if SetWon(ga, gh) then 0.0
    else if SetAtTiebreak(gh, ga) then Tiebreak(pServe, 0, 0, server == 1)
    else
      var next := NextServer(server);
      Mix(PointProb(pServe, homeServes),
          SetValue(pServe, gh + 1, ga, next, next == 1),
          SetValue(pServe, gh, ga + 1, next, next == 1))
  }

  /** P(home wins the set) when the current game is won with `pHomeGame`. */
  function SetFromGame(pServe: real, gh: int, ga: int, pHomeGame: real, server: int, isTiebreak: bool): real {
    if SetWon(gh, ga) then 1.0
    else if SetWon(ga, gh) then 0.0
    else if isTiebreak then pHomeGame
    else if SetAtTiebreak(gh, ga) then Tiebreak(pServe, 0, 0, server == 1)
    else
      var next := NextServer(server);
      Mix(pHomeGame,
          SetValue(pServe, gh + 1, ga, next, next == 1),
          SetValue(pServe, gh, ga + 1, next, next == 1))
  }

  // ---------------------------------------------------------------- match

  function MatchRank(sh: int, sa: int): nat {
    if sh >= SETS_TO_WIN || sa >= SETS_TO_WIN then 0 else 4 - sh - sa
  }

  /** P(home wins a fresh set), averaged over who serves first. */
  function FreshSet(pServe: real): real {
    0.5 * SetValue(pServe, 0, 0, 1, true) + 0.5 * SetValue(pServe, 0, 0, 2, false)
  }

  /** P(home wins the match) from a set score at the start of a set. */
  function MatchValue(pServe: real, sh: int, sa: int): real
    decreases MatchRank(sh, sa)
  {
    if sh >= SETS_TO_WIN then 1.0
    else if sa >= SETS_TO_WIN then 0.0
    else Mix(FreshSet(pServe), MatchValue(pServe, sh + 1, sa), MatchValue(pServe, sh, sa + 1))
  }

  // ---------------------------------------------------------------- queries

  /** Game point strings; anything unknown counts as zero. */
  function PointValue(s: string): int {
    match s
    case "0" => 0
    case "15" => 1
    case "30" => 2
    case "40" => 3
    case "A" => 4
    case _ => 0
  }

  predicate IsDigit(c: char) { '0' <= c <= '9' }

  predicate AllDigits(s: string) {
    forall i :: 0 <= i < |s| ==> IsDigit(s[i])
  }

  function Unsigned(s: string): string {
    if s != "" && (s[0] == '-' || s[0] == '+') then s[1..] else s
  }

  function Digits(s: string): int
    requires AllDigits(s)
  {
    if s == "" then 0 else 10 * Digits(s[..|s| - 1]) + (s[|s| - 1] as int - '0' as int)
  }

  /** Tie-break point strings: decimal integers with an optional sign that fit 64 bits;
      anything else counts as zero. */
  function TbPointValue(s: string): int {
    var digits := Unsigned(s);
    if digits == "" || !AllDigits(digits) then 0
    else
      var n := if s[0] == '-' then -Digits(digits) else Digits(digits);
      if -0x8000_0000_0000_0000 <= n < 0x8000_0000_0000_0000 then n else 0
  }

  function CurrentGame(pServe: real, s: Score): real {
    if s.isTiebreak
    then Tiebreak(pServe, TbPointValue(s.homePoints), TbPointValue(s.awayPoints), s.server == 1)
    else Game(PointValue(s.homePoints), PointValue(s.awayPoints), PointProb(pServe, s.server == 1))
  }

  function CurrentSet(pServe: real, s: Score): real {
    SetFromGame(pServe, s.gamesHome, s.gamesAway, CurrentGame(pServe, s), s.server, s.isTiebreak)
  }

  function WinProbability(pServe: real, s: Score): real {
    if s.setsHome >= SETS_TO_WIN then 1.0
    else if s.setsAway >= SETS_TO_WIN then 0.0
    else
      Mix(CurrentSet(pServe, s),
          MatchValue(pServe, s.setsHome + 1, s.setsAway),
          MatchValue(pServe, s.setsHome, s.setsAway + 1))
  }

  /** Prices are kept within one cent of certainty. */
  function Clamp(p: real): real {
    var low := if p < 0.99 then p else 0.99;
    if low > 0.01 then low else 0.01
  }

  function FairValue(pServe: real, s: Score): real {
    Clamp(WinProbability(pServe, s))
  }

  function SetWinProbability(pServe: real, s: Score): real {
    Clamp(CurrentSet(pServe, s))
  }
}
