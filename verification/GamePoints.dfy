/** Points that end a game.  The model wins the game at hand with the game recursion but all
    games to come with the point probability itself, so the value of a score changes when its
    game becomes the one at hand.  Winning a game can therefore lower the winner's win
    probability; here is exactly when, and when it cannot.
 */
module GamePoints {
  import opened Markov
  import opened MarkovSymmetry
  import opened MarkovMonotone
  import opened Fractions
  import opened TennisRules
  import opened PointFlagTheorems
  import opened MarkovOnCourt

  // ---------------------------------------------------------------- a game against one point

  /** The value of a fresh game, through its value `d` at deuce. */
  function FromDeuce(q: real, r: real, d: real): real {
    q * q * q * q * (1.0 + 4.0 * r + 10.0 * r * r) + 20.0 * (q * q * q) * (r * r * r) * d
  }

  function Split(q: real, r: real, x: real, y: real): real { q * x + r * y }

  /** The game with free weights: a point is won with `q`, lost with `r`, deuce is worth `d`. */
  function Tree(h: nat, a: nat, q: real, r: real, d: real): real
    requires h <= 4 && a <= 4
    decreases 8 - h - a
  {
    if h == 4 then 1.0
    else if a == 4 then 0.0
    else if h == 3 && a == 3 then d
    else Split(q, r, Tree(h + 1, a, q, r, d), Tree(h, a + 1, q, r, d))
  }

  lemma {:induction false} GameTree(h: nat, a: nat, q: real)
    requires h <= 4 && a <= 4 && (h == 4 ==> a <= 2) && (a == 4 ==> h <= 2)
    ensures Game(h, a, q) == Tree(h, a, q, 1.0 - q, Deuce(q))
    decreases 8 - h - a
  {
    hide Deuce, Mix, Split;
    if h < 4 && a < 4 && !(h == 3 && a == 3) {
      GameTree(h + 1, a, q);
      GameTree(h, a + 1, q);
      GameOneStep(h, a, q);
      MixSplit(q, Game(h + 1, a, q), Game(h, a + 1, q));
    }
  }

  lemma MixSplit(q: real, x: real, y: real)
    ensures Mix(q, x, y) == Split(q, 1.0 - q, x, y)
  {
  }

  lemma TreeStep(h: nat, a: nat, q: real, r: real, d: real)
    requires h < 4 && a < 4 && !(h == 3 && a == 3)
    ensures Tree(h, a, q, r, d) == Split(q, r, Tree(h + 1, a, q, r, d), Tree(h, a + 1, q, r, d))
  {
  }

  lemma TreeAtForty(q: real, r: real, d: real)
    ensures Tree(3, 2, q, r, d) == q + r * d && Tree(2, 3, q, r, d) == q * d
    ensures Tree(3, 1, q, r, d) == q + r * q + r * r * d && Tree(1, 3, q, r, d) == q * q * d
    ensures Tree(3, 0, q, r, d) == q + r * q + r * r * q + r * r * r * d && Tree(0, 3, q, r, d) == q * q * q * d
  {
  }

  // Each value below is one step of the tree on the values above it.

  lemma TreeThirtyAll(q: real, r: real, d: real)
    ensures Tree(2, 2, q, r, d) == q * q + 2.0 * (q * r * d)
  {
    hide Tree, Split;
    TreeAtForty(q, r, d);
    TreeStep(2, 2, q, r, d);
    ThirtyAllTerms(q, r, d);
  }

  lemma ThirtyAllTerms(q: real, r: real, d: real)
    ensures Split(q, r, q + r * d, q * d) == q * q + 2.0 * (q * r * d)
  {
  }

  lemma TreeThirtyFifteen(q: real, r: real, d: real)
    ensures Tree(2, 1, q, r, d) == q * q + 2.0 * (r * q * q) + 3.0 * (q * r * r * d)
  {
    hide Tree, Split;
    TreeAtForty(q, r, d);
    TreeThirtyAll(q, r, d);
    TreeStep(2, 1, q, r, d);
    ThirtyFifteenTerms(q, r, d);
  }

  lemma ThirtyFifteenTerms(q: real, r: real, d: real)
    ensures Split(q, r, q + r * q + r * r * d, q * q + 2.0 * (q * r * d)) == q * q + 2.0 * (r * q * q) + 3.0 * (q * r * r * d)
  {
  }

  lemma TreeFifteenThirty(q: real, r: real, d: real)
    ensures Tree(1, 2, q, r, d) == q * q * q + 3.0 * (q * q * r * d)
  {
    hide Tree, Split;
    TreeAtForty(q, r, d);
    TreeThirtyAll(q, r, d);
    TreeStep(1, 2, q, r, d);
    FifteenThirtyTerms(q, r, d);
  }

  lemma FifteenThirtyTerms(q: real, r: real, d: real)
    ensures Split(q, r, q * q + 2.0 * (q * r * d), q * q * d) == q * q * q + 3.0 * (q * q * r * d)
  {
  }

  lemma TreeThirtyLove(q: real, r: real, d: real)
    ensures Tree(2, 0, q, r, d) == q * q + 2.0 * (r * q * q) + 3.0 * (r * r * q * q) + 4.0 * (q * r * r * r * d)
  {
    hide Tree, Split;
    TreeAtForty(q, r, d);
    TreeThirtyFifteen(q, r, d);
    TreeStep(2, 0, q, r, d);
    ThirtyLoveTerms(q, r, d);
  }

  lemma ThirtyLoveTerms(q: real, r: real, d: real)
    ensures Split(q, r, q + r * q + r * r * q + r * r * r * d, q * q + 2.0 * (r * q * q) + 3.0 * (q * r * r * d))
         == q * q + 2.0 * (r * q * q) + 3.0 * (r * r * q * q) + 4.0 * (q * r * r * r * d)
  {
  }

  lemma TreeFifteenAll(q: real, r: real, d: real)
    ensures Tree(1, 1, q, r, d) == q * q * q + 3.0 * (r * q * q * q) + 6.0 * (q * q * r * r * d)
  {
    hide Tree, Split;
    TreeThirtyFifteen(q, r, d);
    TreeFifteenThirty(q, r, d);
    TreeStep(1, 1, q, r, d);
    FifteenAllTerms(q, r, d);
  }

  lemma FifteenAllTerms(q: real, r: real, d: real)
    ensures Split(q, r, q * q + 2.0 * (r * q * q) + 3.0 * (q * r * r * d), q * q * q + 3.0 * (q * q * r * d))
         == q * q * q + 3.0 * (r * q * q * q) + 6.0 * (q * q * r * r * d)
  {
  }

  lemma TreeLoveThirty(q: real, r: real, d: real)
    ensures Tree(0, 2, q, r, d) == q * q * q * q + 4.0 * (q * q * q * r * d)
  {
    hide Tree, Split;
    TreeAtForty(q, r, d);
    TreeFifteenThirty(q, r, d);
    TreeStep(0, 2, q, r, d);
    LoveThirtyTerms(q, r, d);
  }

  lemma LoveThirtyTerms(q: real, r: real, d: real)
    ensures Split(q, r, q * q * q + 3.0 * (q * q * r * d), q * q * q * d) == q * q * q * q + 4.0 * (q * q * q * r * d)
  {
  }

  lemma TreeFresh(q: real, r: real, d: real)
    ensures Tree(0, 0, q, r, d) == FromDeuce(q, r, d)
  {
    var g20, g11, g02 := Tree(2, 0, q, r, d), Tree(1, 1, q, r, d), Tree(0, 2, q, r, d);
    assert Tree(0, 0, q, r, d) == Split(q, r, Split(q, r, g20, g11), Split(q, r, g11, g02));
    hide Tree, Split, FromDeuce;
    TreeThirtyLove(q, r, d);
    TreeFifteenAll(q, r, d);
    TreeLoveThirty(q, r, d);
    FreshTerms(q, r, d);
  }

  lemma FreshTerms(q: real, r: real, d: real)
    ensures var g20 := q * q + 2.0 * (r * q * q) + 3.0 * (r * r * q * q) + 4.0 * (q * r * r * r * d);
            var g11 := q * q * q + 3.0 * (r * q * q * q) + 6.0 * (q * q * r * r * d);
            var g02 := q * q * q * q + 4.0 * (q * q * q * r * d);
            Split(q, r, Split(q, r, g20, g11), Split(q, r, g11, g02)) == FromDeuce(q, r, d)
  {
  }

  lemma FreshGame(q: real)
    ensures Game(0, 0, q) == FromDeuce(q, 1.0 - q, Deuce(q))
  {
    hide Tree, FromDeuce;
    GameTree(0, 0, q);
    TreeFresh(q, 1.0 - q, Deuce(q));
  }

  // For the better player a game is worth more than one point.

  lemma DeuceBoost(q: real)
    requires 0.5 <= q <= 1.0
    ensures Deuce(q) >= q
  {
    var r := 1.0 - q;
    DeuceDenominator(q);
    var d, x := q * q + r * r, Deuce(q);
    assert x * d == q * q;
    ProductNonNegative(q, r);
    ProductNonNegative(q * r, q - r);
    assert (x - q) * d == q * r * (q - r) by {
      assert q * d == q * q * q + q * r * r;
      assert q * q == q * q * (q + r);
    }
    FactorNonNegative(x - q, d);
  }

  lemma GameBoostTerms(q: real, r: real)
    requires q + r == 1.0
    ensures q * q * q * (1.0 + 4.0 * r + 10.0 * r * r + 20.0 * (r * r * r))
         == 1.0 + r * (1.0 - 2.0 * r) * (1.0 + 3.0 * r + 7.0 * r * r - 20.0 * (r * r * r) + 10.0 * (r * r * r * r))
  {
    assert q == 1.0 - r;
  }

  lemma FromDeuceGrows(q: real, r: real, d: real)
    requires q >= 0.0 && r >= 0.0 && d >= q
    ensures FromDeuce(q, r, d) >= q * (q * q * q * (1.0 + 4.0 * r + 10.0 * r * r + 20.0 * (r * r * r)))
  {
    ProductNonNegative(q, q);
    ProductNonNegative(q * q, q);
    ProductNonNegative(r, r);
    ProductNonNegative(r * r, r);
    ProductNonNegative(q * q * q, r * r * r);
    ProductNonNegative(q * q * q * (r * r * r), d - q);
    FromDeuceTerms(q, r, d);
  }

  lemma FromDeuceTerms(q: real, r: real, d: real)
    ensures FromDeuce(q, r, d) == q * (q * q * q * (1.0 + 4.0 * r + 10.0 * r * r + 20.0 * (r * r * r)))
                                  + 20.0 * (q * q * q * (r * r * r) * (d - q))
  {
  }

  lemma TermsPositive(r: real)
    requires 0.0 <= r <= 0.5
    ensures r * (1.0 - 2.0 * r) * (1.0 + 3.0 * r + 7.0 * r * r - 20.0 * (r * r * r) + 10.0 * (r * r * r * r)) >= 0.0
  {
    ProductNonNegative(r, 1.0 - 2.0 * r);
    var s := r * r;
    ProductNonNegative(r, r);
    ProductNonNegative(s, s);
    ProductNonNegative(s, 0.5 - r);
    assert r * r * r <= 0.5 * s;
    assert s <= 0.5 * r by { ProductNonNegative(r, 0.5 - r); }
    assert r * r * r * r == s * s;
    ProductNonNegative(r * (1.0 - 2.0 * r),
                       1.0 + 3.0 * r + 7.0 * r * r - 20.0 * (r * r * r) + 10.0 * (r * r * r * r));
  }

  /** Whoever wins a point with probability `q` of at least one half wins a game with no
      less, and the other player with no more. */
  lemma GameBoost(q: real)
    requires Unit(q)
    ensures q >= 0.5 ==> Game(0, 0, q) >= q
    ensures q <= 0.5 ==> Game(0, 0, q) <= q
  {
    hide Game, Deuce;
    if q >= 0.5 {
      BoostUp(q);
    }
    if q <= 0.5 {
      BoostUp(1.0 - q);
      GameSwap(0, 0, q);
    }
  }

  lemma BoostUp(q: real)
    requires 0.5 <= q <= 1.0
    ensures Game(0, 0, q) >= q
  {
    hide Game, Deuce, FromDeuce;
    var r := 1.0 - q;
    FreshGame(q);
    DeuceBoost(q);
    FromDeuceGrows(q, r, Deuce(q));
    GameBoostTerms(q, r);
    TermsPositive(r);
    var x := q * q * q * (1.0 + 4.0 * r + 10.0 * r * r + 20.0 * (r * r * r));
    assert x >= 1.0;
    ProductNonNegative(q, x - 1.0);
  }

  // ---------------------------------------------------------------- values carried by the recursions

  /** The match's value at the start of a game, as the set and match recursions carry it. */
  function Carried(p: real, sets: Pair, games: Pair, server: int): real {
    Mix(SetFor(p, games.home, games.away, server),
        MatchValue(p, sets.home + 1, sets.away), MatchValue(p, sets.home, sets.away + 1))
  }

  /** The same once `w` has won the game at hand and `server` serves the next. */
  function Won(p: real, s: State, w: Player, server: int): real {
    if !InTiebreak(s) then Carried(p, s.sets, s.games.Won(w), server)
    else if w.Home? then MatchValue(p, s.sets.home + 1, s.sets.away)
    else MatchValue(p, s.sets.home, s.sets.away + 1)
  }

  lemma MixMix(g: real, a: real, b: real, x: real, y: real)
    ensures Mix(Mix(g, a, b), x, y) == Mix(g, Mix(a, x, y), Mix(b, x, y))
  {
  }

  lemma MixDiff(g: real, g': real, x: real, y: real)
    ensures Mix(g', x, y) == Mix(g, x, y) + (g' - g) * (x - y)
    ensures Mix(g, x, y) == x - (1.0 - g) * (x - y) == y + g * (x - y)
  {
  }

  /** The set and match layers over the game at hand. */
  lemma QueryLayers(p: real, s: State, server: int)
    requires InPlay(s)
    ensures var n, g := NextServer(server), CurrentGame(p, ScoreAt(s, server));
            var set_ := if InTiebreak(s) then g
                        else Mix(g, SetFor(p, s.games.home + 1, s.games.away, n), SetFor(p, s.games.home, s.games.away + 1, n));
            WinProbability(p, ScoreAt(s, server)) ==
              Mix(set_, MatchValue(p, s.sets.home + 1, s.sets.away), MatchValue(p, s.sets.home, s.sets.away + 1))
  {
    hide Mix, MatchValue, SetValue, CurrentGame, Tiebreak, RowOf;
  }

  /** Any score is worth its game's value between the values carried for its two ends. */
  lemma BetweenEnds(p: real, s: State, server: int)
    requires InPlay(s)
    ensures WinProbability(p, ScoreAt(s, server)) ==
            Mix(CurrentGame(p, ScoreAt(s, server)), Won(p, s, Home, NextServer(server)), Won(p, s, Away, NextServer(server)))
  {
    hide Mix, MatchValue, SetFor, CurrentGame, ScoreAt, WinProbability, InPlay;
    var n, g := NextServer(server), CurrentGame(p, ScoreAt(s, server));
    QueryLayers(p, s, server);
    if !InTiebreak(s) {
      MixMix(g, SetFor(p, s.games.home + 1, s.games.away, n), SetFor(p, s.games.home, s.games.away + 1, n),
             MatchValue(p, s.sets.home + 1, s.sets.away), MatchValue(p, s.sets.home, s.sets.away + 1));
    }
  }

  /** How far the game recursion moves the value of a score at the start of a game away from
      the one carried for it. */
  function Shift(p: real, s: State, server: int): real {
    var q, n := PointProb(p, server == 1), NextServer(server);
    if InTiebreak(s) then 0.0
    else (Game(0, 0, q) - q) * (Carried(p, s.sets, s.games.Won(Home), n) - Carried(p, s.sets, s.games.Won(Away), n))
  }

  predicate GameStarts(s: State) { InPlay(s) && s.points == Pair(0, 0) }

  /** At the start of a game: the game at hand is fresh, and the set recursion's next step. */
  lemma StartLayers(p: real, s: State, server: int)
    requires GameStarts(s)
    ensures var q, n := PointProb(p, server == 1), NextServer(server);
            if InTiebreak(s) then CurrentGame(p, ScoreAt(s, server)) == SetFor(p, s.games.home, s.games.away, server)
            else CurrentGame(p, ScoreAt(s, server)) == Game(0, 0, q)
                 && SetFor(p, s.games.home, s.games.away, server) ==
                      Mix(q, SetFor(p, s.games.home + 1, s.games.away, n), SetFor(p, s.games.home, s.games.away + 1, n))
  {
    hide Mix, Game, Tiebreak;
    TbPointValueDecimal(0);
  }

  /** At the start of a game the carried value is the mean of those for its two ends, the game
      weighed as one point of its server and the serve changing hands; at six games all, as
      the tie-break. */
  lemma CarriedStep(p: real, s: State, server: int)
    requires GameStarts(s) && (server == 1 || server == 2)
    ensures var q := if InTiebreak(s) then CurrentGame(p, ScoreAt(s, server)) else PointProb(p, server == 1);
            Carried(p, s.sets, s.games, server) == Mix(q, Won(p, s, Home, 3 - server), Won(p, s, Away, 3 - server))
  {
    hide MatchValue, SetFor, Game, ScoreAt, WinProbability, InPlay, CurrentGame, Mix;
    var q, n := PointProb(p, server == 1), NextServer(server);
    StartLayers(p, s, server);
    if !InTiebreak(s) {
      MixMix(q, SetFor(p, s.games.home + 1, s.games.away, n), SetFor(p, s.games.home, s.games.away + 1, n),
             MatchValue(p, s.sets.home + 1, s.sets.away), MatchValue(p, s.sets.home, s.sets.away + 1));
    }
  }

  lemma StartValue(p: real, s: State, server: int)
    requires GameStarts(s)
    ensures WinProbability(p, ScoreAt(s, server)) == Carried(p, s.sets, s.games, server) + Shift(p, s, server)
  {
    hide Mix, MatchValue, SetFor, Game, ScoreAt, WinProbability, InPlay, CurrentGame;
    var q, n := PointProb(p, server == 1), NextServer(server);
    StartLayers(p, s, server);
    if InTiebreak(s) {
      QueryLayers(p, s, server);
    } else {
      BetweenEnds(p, s, server);
      MixMix(q, SetFor(p, s.games.home + 1, s.games.away, n), SetFor(p, s.games.home, s.games.away + 1, n),
             MatchValue(p, s.sets.home + 1, s.sets.away), MatchValue(p, s.sets.home, s.sets.away + 1));
      MixDiff(q, Game(0, 0, q), Won(p, s, Home, n), Won(p, s, Away, n));
    }
  }

  lemma SetEnds(p: real, g: Pair, server: int)
    ensures SetWon(g.home, g.away) ==> SetFor(p, g.home, g.away, server) == 1.0
    ensures SetWon(g.away, g.home) ==> SetFor(p, g.home, g.away, server) == 0.0
  {
  }

  lemma MixEnds(x: real, y: real)
    ensures Mix(1.0, x, y) == x && Mix(0.0, x, y) == y && Mix(0.5, x, y) == 0.5 * x + 0.5 * y
  {
  }

  /** Winning a game leads to the score whose carried value is the one for that end. */
  lemma EndCarried(p: real, s: State, w: Player, server: int)
    requires InPlay(s) && WinsGame(s, w) && !WinsMatch(s, w) && (server == 1 || server == 2)
    ensures GameStarts(Step(s, w)) && Carried(p, Step(s, w).sets, Step(s, w).games, server) == Won(p, s, w, server)
  {
    if WinsSet(s, w) {
      hide MatchValue, Tiebreak, SetFor, Mix;
      SetCarried(p, s, w, server);
    } else {
      hide Mix, MatchValue, SetFor;
    }
  }

  lemma FreshIsHalf(p: real, server: int)
    requires server == 1 || server == 2
    ensures SetFor(p, 0, 0, server) == 0.5 && FreshSet(p) == 0.5
  {
    hide SetValue;
    LevelSetIsHalf(p, 0);
  }

  lemma SetEndsAt(s: State, w: Player)
    requires InPlay(s) && WinsSet(s, w) && !WinsMatch(s, w)
    ensures var sets, g := Step(s, w).sets, s.games.Won(w);
            && sets == s.sets.Won(w) && sets.home < SETS_TO_WIN && sets.away < SETS_TO_WIN
            && (InTiebreak(s) || SetWon(g.Of(w), g.Of(w.Other())))
  {
  }

  lemma SetCarried(p: real, s: State, w: Player, server: int)
    requires InPlay(s) && WinsSet(s, w) && !WinsMatch(s, w) && (server == 1 || server == 2)
    ensures Carried(p, Step(s, w).sets, Pair(0, 0), server) == Won(p, s, w, server)
  {
    hide Mix, MatchValue, SetFor, FreshSet, InPlay, WinsSet, WinsMatch, Step, InTiebreak, SetWon;
    SetEndsAt(s, w);
    var sets := Step(s, w).sets;
    FreshIsHalf(p, server);
    MatchStep(p, sets.home, sets.away);
    MixEnds(MatchValue(p, sets.home + 1, sets.away), MatchValue(p, sets.home, sets.away + 1));
    assert Carried(p, sets, Pair(0, 0), server) == MatchValue(p, sets.home, sets.away);
    SetEnds(p, s.games.Won(w), server);
    MixEnds(MatchValue(p, s.sets.home + 1, s.sets.away), MatchValue(p, s.sets.home, s.sets.away + 1));
  }

  // ---------------------------------------------------------------- who gains by a game

  /** The next server after a game: the other player, or after a tie-break either. */
  predicate ServesNext(s: State, server: int, server': int) {
    (server' == 1 || server' == 2) && (InTiebreak(s) || server' == NextServer(server))
  }

  /** A point that ends a game but not the match: its winner gains exactly what losing the
      game would still have cost, plus or minus the shift at the new score. */
  lemma GamePoint(p: real, s: State, w: Player, server: int, server': int)
    requires InPlay(s) && WinsGame(s, w) && !WinsMatch(s, w) && ServesNext(s, server, server')
    ensures var g := CurrentGame(p, ScoreAt(s, server));
            var before, after := WinProbability(p, ScoreAt(s, server)), WinProbability(p, ScoreAt(Step(s, w), server'));
            var span := Won(p, s, Home, server') - Won(p, s, Away, server');
            && after - before == Shift(p, Step(s, w), server') + (if w.Home? then (1.0 - g) * span else -(g * span))
            && (w.Home? ==> (before <= after <==> -Shift(p, Step(s, w), server') <= (1.0 - g) * span))
            && (w.Away? ==> (after <= before <==> Shift(p, Step(s, w), server') <= g * span))
  {
    hide Mix, MatchValue, SetFor, Game, ScoreAt, WinProbability, InPlay, CurrentGame, Carried, Shift, WinsGame;
    var g := CurrentGame(p, ScoreAt(s, server));
    BetweenEnds(p, s, server);
    assert Won(p, s, Home, NextServer(server)) == Won(p, s, Home, server')
        && Won(p, s, Away, NextServer(server)) == Won(p, s, Away, server');
    EndCarried(p, s, w, server');
    StartValue(p, Step(s, w), server');
    MixDiff(g, g, Won(p, s, Home, server'), Won(p, s, Away, server'));
  }

  /** Winning a game is never carried as worse than losing it. */
  lemma CarriedOrder(p: real, sets: Pair, games: Pair, server: int)
    requires Unit(p) && sets.home < SETS_TO_WIN && sets.away < SETS_TO_WIN && !SetClosed(games.home, games.away)
    ensures Carried(p, sets, games.Won(Home), server) >= Carried(p, sets, games.Won(Away), server)
  {
    hide Mix, MatchValue, SetValue;
    SetOrder(p, games.home, games.away, server);
    MatchOrder(p, sets.home, sets.away);
    SlopeGrows(SetFor(p, games.home, games.away + 1, server), SetFor(p, games.home + 1, games.away, server),
               MatchValue(p, sets.home + 1, sets.away), MatchValue(p, sets.home, sets.away + 1));
  }

  /** With the better server's probability the shift favours the next server. */
  lemma ShiftSign(p: real, s: State, server: int)
    requires 0.5 <= p <= 1.0 && GameStarts(s) && (server == 1 || server == 2)
    ensures server == 1 ==> Shift(p, s, server) >= 0.0
    ensures server == 2 ==> Shift(p, s, server) <= 0.0
    ensures p == 0.5 ==> Shift(p, s, server) == 0.0
  {
    hide Game, Carried;
    if !InTiebreak(s) {
      var q, n := PointProb(p, server == 1), NextServer(server);
      GameBoost(q);
      CarriedOrder(p, s.sets, s.games, n);
      var span := Carried(p, s.sets, s.games.Won(Home), n) - Carried(p, s.sets, s.games.Won(Away), n);
      if server == 1 {
        ProductNonNegative(Game(0, 0, q) - q, span);
      } else {
        ProductNonNegative(q - Game(0, 0, q), span);
        assert (Game(0, 0, q) - q) * span == -((q - Game(0, 0, q)) * span);
      }
    }
  }

  lemma SpanSign(p: real, s: State, server: int)
    requires Unit(p) && InPlay(s)
    ensures Won(p, s, Home, server) >= Won(p, s, Away, server)
  {
    hide Carried, MatchValue;
    if InTiebreak(s) {
      MatchOrder(p, s.sets.home, s.sets.away);
    } else {
      CarriedOrder(p, s.sets, s.games, server);
    }
  }

  /** When the server wins points at least half the time, a point that wins the match, or a
      game after which its winner serves (a break of serve, for one), never lowers the
      winner's chances; at exactly one half no game does. */
  lemma GamePointNeverHurts(p: real, s: State, w: Player, server: int, server': int)
    requires 0.5 <= p <= 1.0 && InPlay(s) && WinsGame(s, w)
    requires WinsMatch(s, w) || (ServesNext(s, server, server') && (server' == w.Number() || p == 0.5))
    ensures var before, after := WinProbability(p, ScoreAt(s, server)), WinProbability(p, ScoreAt(Step(s, w), server'));
            if w.Home? then before <= after else after <= before
  {
    hide WinProbability, ScoreAt, WinsGame, InPlay, Step, WinsMatch;
    if WinsMatch(s, w) {
      MatchPoint(p, s, w, server, server');
    } else {
      ServedGame(p, s, w, server, server');
    }
  }

  lemma ServedGame(p: real, s: State, w: Player, server: int, server': int)
    requires 0.5 <= p <= 1.0 && InPlay(s) && WinsGame(s, w) && !WinsMatch(s, w)
    requires ServesNext(s, server, server') && (server' == w.Number() || p == 0.5)
    ensures var before, after := WinProbability(p, ScoreAt(s, server)), WinProbability(p, ScoreAt(Step(s, w), server'));
            if w.Home? then before <= after else after <= before
  {
    hide Won, Shift, CurrentGame, WinProbability, WinsGame, WinsMatch, ScoreAt, InPlay, GameStarts, Step, CurrentSet, Carried, ServesNext;
    assert server' == 1 || server' == 2 by { NextIsPlayer(s, server, server'); }
    var g, span := CurrentGame(p, ScoreAt(s, server)), Won(p, s, Home, server') - Won(p, s, Away, server');
    WinProbabilityUnit(p, ScoreAt(s, server));
    GamePoint(p, s, w, server, server');
    EndCarried(p, s, w, server');
    ShiftSign(p, Step(s, w), server');
    SpanSign(p, s, server');
    Gains(WinProbability(p, ScoreAt(s, server)), WinProbability(p, ScoreAt(Step(s, w), server')),
          Shift(p, Step(s, w), server'), g, span, w.Home?);
  }

  lemma Gains(before: real, after: real, shift: real, g: real, span: real, home: bool)
    requires after - before == shift + (if home then (1.0 - g) * span else -(g * span))
    requires Unit(g) && span >= 0.0 && (if home then shift >= 0.0 else shift <= 0.0)
    ensures if home then before <= after else after <= before
  {
    ProductNonNegative(g, span);
    ProductNonNegative(1.0 - g, span);
  }

  lemma NextIsPlayer(s: State, server: int, server': int)
    requires ServesNext(s, server, server')
    ensures server' == 1 || server' == 2
  {
  }

  lemma MatchPoint(p: real, s: State, w: Player, server: int, server': int)
    requires Unit(p) && InPlay(s) && WinsMatch(s, w)
    ensures var before, after := WinProbability(p, ScoreAt(s, server)), WinProbability(p, ScoreAt(Step(s, w), server'));
            if w.Home? then before <= after else after <= before
  {
    hide WinProbability, ScoreAt, Step, InPlay, WinsMatch, CurrentSet, CurrentGame;
    MatchWonSets(s, w);
    WinProbabilityUnit(p, ScoreAt(s, server));
    MatchOver(p, Step(s, w), server');
  }

  lemma MatchWonSets(s: State, w: Player)
    requires InPlay(s) && WinsMatch(s, w)
    ensures var sets := Step(s, w).sets;
            if w.Home? then sets.home >= SETS_TO_WIN else sets.home < SETS_TO_WIN <= sets.away
  {
  }

  lemma MatchOver(p: real, s: State, server: int)
    ensures s.sets.home >= SETS_TO_WIN ==> WinProbability(p, ScoreAt(s, server)) == 1.0
    ensures s.sets.home < SETS_TO_WIN <= s.sets.away ==> WinProbability(p, ScoreAt(s, server)) == 0.0
  {
    hide CurrentSet, MatchValue, RowOf, Mix;
  }

  // ---------------------------------------------------------------- a hold that hurts

  /** Five games all, home serving at 40-0. */
  const FortyLove := State(Pair(0, 0), Pair(5, 5), Pair(3, 0))

  lemma SixAll(p: real, server: int)
    ensures SetFor(p, 7, 5, server) == 1.0 && SetFor(p, 5, 7, server) == 0.0 && SetFor(p, 6, 6, server) == 0.5
  {
    hide Tiebreak;
    TiebreakLevelIsHalf(p, 0, server == 1);
  }

  lemma SixFive(p: real, server: int)
    ensures SetFor(p, 6, 5, server) == Mix(PointProb(p, server == 1), 1.0, 0.5)
    ensures SetFor(p, 5, 6, server) == Mix(PointProb(p, server == 1), 0.5, 0.0)
  {
    hide Mix, Tiebreak;
    SixAll(p, NextServer(server));
  }

  /** At any serve probability: the values carried around six games to five. */
  lemma FiveAllValues(p: real)
    ensures Won(p, FortyLove, Home, 2) - Won(p, FortyLove, Away, 2) == 0.25
    ensures Shift(p, Step(FortyLove, Home), 2) == (Game(0, 0, 1.0 - p) - (1.0 - p)) * 0.25
  {
    hide Game, SetFor, MatchValue;
    MatchLayer(p);
    SixAll(p, 1);
    SixFive(p, 2);
    var q := 1.0 - p;
    assert Carried(p, Pair(0, 0), Pair(6, 5), 2) == 0.5 + 0.25 * q;
    assert Carried(p, Pair(0, 0), Pair(5, 6), 2) == 0.25 + 0.25 * q;
    assert Carried(p, Pair(0, 0), Pair(7, 5), 1) == 0.75 && Carried(p, Pair(0, 0), Pair(6, 6), 1) == 0.5;
    assert Step(FortyLove, Home) == State(Pair(0, 0), Pair(6, 5), Pair(0, 0));
  }

  lemma FortyLoveGame()
    ensures Game(3, 0, 0.64) >= 0.95
  {
    hide Deuce, Game, Tree;
    var q, r, d := 0.64, 0.36, Deuce(0.64);
    GameTree(3, 0, q);
    TreeAtForty(q, r, d);
    DeuceUnit(q);
    ProductNonNegative(r * r * r, d);
  }

  lemma ReturnGame()
    ensures Game(0, 0, 0.36) <= 0.19
  {
    hide Game;
    var d := Deuce(0.36);
    assert d <= 0.25;
    FreshGame(0.36);
  }

  /** With the model's default serve probability, holding serve from 40-0 at five games all
      lowers the holder's win probability: the next game is lost with the game recursion
      where it used to be lost with the point probability. */
  lemma HoldHurts()
    ensures WinsGame(FortyLove, Home) && ServesNext(FortyLove, 1, 2)
    ensures WinProbability(0.64, ScoreAt(Step(FortyLove, Home), 2)) < WinProbability(0.64, ScoreAt(FortyLove, 1))
  {
    hide Game, Won, Shift, WinProbability;
    var p := 0.64;
    assert CurrentGame(p, ScoreAt(FortyLove, 1)) == Game(3, 0, p);
    GamePoint(p, FortyLove, Home, 1, 2);
    FiveAllValues(p);
    FortyLoveGame();
    ReturnGame();
  }
}
