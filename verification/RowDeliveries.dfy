/** The feed may deliver the rows of a match in any order: late, again, or not at all.  The
    tracker counts every delivery before it filters the rows it has seen, so what it knows of
    the set score depends on the order.  Here is exactly when it stays right, and that its
    signals are exact as long as it does.
 */
module RowDeliveries {
  import opened Wrappers
  import opened TennisRules
  import opened PointFlags
  import opened PointFlagTheorems

  /** The `i`-th row of a match. */
  function RowAt(ws: seq<Player>, servers: seq<int>, i: nat): Row
    requires i < |ws| == |servers|
  {
    RowOf(Play(ws[..i]), servers[i], ws[i])
  }

  function SetNo(ws: seq<Player>, i: nat): int
    requires i <= |ws|
  {
    SetNumber(Play(ws[..i]))
  }

  predicate Deliverable(ws: seq<Player>, d: seq<nat>) {
    forall k :: 0 <= k < |d| ==> d[k] < |ws|
  }

  /** The latest row of the match among some deliveries. */
  function Latest(d: seq<nat>): (i: nat)
    requires d != []
    ensures i in d && forall k :: 0 <= k < |d| ==> d[k] <= i
  {
    var last := d[|d| - 1];
    if |d| == 1 then last
    else
      var before := Latest(d[..|d| - 1]);
      assert d == d[..|d| - 1] + [last];
      if last > before then last else before
  }

  /** The counter after the deliveries `d`. */
  function CounterOver(ws: seq<Player>, servers: seq<int>, d: seq<nat>): Counter
    requires |ws| == |servers| && Deliverable(ws, d)
  {
    if d == [] then NewCounter
    else Observe(CounterOver(ws, servers, d[..|d| - 1]), RowAt(ws, servers, d[|d| - 1]))
  }

  /** The counter holds the set score at which row `i` was played. */
  predicate Right(ws: seq<Player>, c: Counter, i: nat)
    requires i <= |ws|
  {
    c.setsHome == Play(ws[..i]).sets.home && c.setsAway == Play(ws[..i]).sets.away
  }

  /** After the deliveries the counter is right for the latest of them. */
  predicate RightNow(ws: seq<Player>, servers: seq<int>, d: seq<nat>)
    requires |ws| == |servers| && Deliverable(ws, d) && d != []
  {
    Right(ws, CounterOver(ws, servers, d), Latest(d))
  }

  /** At every delivery so far the counter was right. */
  predicate RightThroughout(ws: seq<Player>, servers: seq<int>, d: seq<nat>)
    requires |ws| == |servers| && Deliverable(ws, d)
  {
    d == [] || (RightThroughout(ws, servers, d[..|d| - 1]) && RightNow(ws, servers, d))
  }

  // ---------------------------------------------------------------- what the order must respect

  /** The player a row speaks for: the leader in games, or its scorer if level. */
  function SpeaksFor(p: Row): int { LastRowWinner(Observe(NewCounter, p)) }

  /** Who wins the set in which row `i` is played, if the match goes that far. */
  function SetWinner(ws: seq<Player>, i: nat): Option<Player>
    decreases |ws| - i
  {
    if i >= |ws| then None
    else if WinsSet(Play(ws[..i]), ws[i]) then Some(ws[i])
    else SetWinner(ws, i + 1)
  }

  /** Row `i` after the deliveries `d`: if its set number is higher than that of the row
      before it, it must be the first to come of the next set, and the row before it must
      speak for the winner of the set that is over.  The first row must be of set one. */
  predicate Proper(ws: seq<Player>, servers: seq<int>, d: seq<nat>, i: nat)
    requires |ws| == |servers| && Deliverable(ws, d) && i < |ws|
  {
    if d == [] then SetNo(ws, i) == 1
    else
      SetNo(ws, i) > SetNo(ws, d[|d| - 1]) ==>
        var winner := SetWinner(ws, Latest(d));
        && SetNo(ws, i) == SetNo(ws, Latest(d)) + 1
        && winner.Some? && SpeaksFor(RowAt(ws, servers, d[|d| - 1])) == winner.value.Number()
  }

  predicate AllProper(ws: seq<Player>, servers: seq<int>, d: seq<nat>)
    requires |ws| == |servers| && Deliverable(ws, d)
  {
    d == [] || (AllProper(ws, servers, d[..|d| - 1]) && Proper(ws, servers, d[..|d| - 1], d[|d| - 1]))
  }

  // ---------------------------------------------------------------- sets over a match

  lemma {:induction false} SetsGrow(ws: seq<Player>, i: nat, j: nat)
    requires i <= j <= |ws|
    ensures var s, s' := Play(ws[..i]).sets, Play(ws[..j]).sets; s.home <= s'.home && s.away <= s'.away
    ensures SetNo(ws, i) <= SetNo(ws, j)
    ensures SetNo(ws, i) == SetNo(ws, j) ==> Play(ws[..i]).sets == Play(ws[..j]).sets
  {
    if i < j {
      SetsGrow(ws, i, j - 1);
      assert ws[..j][..j - 1] == ws[..j - 1];
    }
  }

  lemma {:induction false} SetWinnerDecides(ws: seq<Player>, i: nat, j: nat)
    requires i < j <= |ws| && SetNo(ws, j) == SetNo(ws, i) + 1
    ensures SetWinner(ws, i).Some? && Play(ws[..j]).sets == Play(ws[..i]).sets.Won(SetWinner(ws, i).value)
    decreases |ws| - i
  {
    assert ws[..i + 1][..i] == ws[..i];
    SetsGrow(ws, i + 1, j);
    if !WinsSet(Play(ws[..i]), ws[i]) {
      SetWinnerDecides(ws, i + 1, j);
    }
  }

  // ---------------------------------------------------------------- one delivery

  lemma SpeaksForOne(ws: seq<Player>, servers: seq<int>, i: nat)
    requires i < |ws| == |servers|
    ensures SpeaksFor(RowAt(ws, servers, i)) in {1, 2}
  {
  }

  /** The counter remembers the row delivered last. */
  lemma CounterLast(ws: seq<Player>, servers: seq<int>, d: seq<nat>)
    requires |ws| == |servers| && Deliverable(ws, d) && d != []
    ensures var c, i := CounterOver(ws, servers, d), d[|d| - 1];
            c.lastSetNum == SetNo(ws, i) && c.lastSetNum > 0 && LastRowWinner(c) == SpeaksFor(RowAt(ws, servers, i))
  {
  }

  lemma LatestAppend(d: seq<nat>, i: nat)
    ensures Latest(d + [i]) == if d != [] && Latest(d) > i then Latest(d) else i
  {
    assert (d + [i])[..|d|] == d;
  }

  lemma CounterAppend(ws: seq<Player>, servers: seq<int>, d: seq<nat>, i: nat)
    requires |ws| == |servers| && Deliverable(ws, d + [i])
    ensures Deliverable(ws, d) && i < |ws|
    ensures CounterOver(ws, servers, d + [i]) == Observe(CounterOver(ws, servers, d), RowAt(ws, servers, i))
  {
    assert (d + [i])[..|d|] == d && (d + [i])[|d|] == i;
    assert forall k :: 0 <= k < |d| ==> d[k] == (d + [i])[k];
  }

  /** What a delivery adds to the sets: nothing, or one for the player the last row speaks
      for. */
  lemma ObserveSets(c: Counter, p: Row)
    requires c.lastSetNum > 0
    ensures var c' := Observe(c, p);
            if p.setNumber <= c.lastSetNum then c'.setsHome == c.setsHome && c'.setsAway == c.setsAway
            else && c'.setsHome == c.setsHome + (if LastRowWinner(c) == 1 then 1 else 0)
                 && c'.setsAway == c.setsAway + (if LastRowWinner(c) == 2 then 1 else 0)
  {
  }

  lemma FirstDelivery(ws: seq<Player>, servers: seq<int>, i: nat)
    requires i < |ws| == |servers|
    ensures RightNow(ws, servers, [i]) <==> SetNo(ws, i) == 1
  {
    assert [] + [i] == [i];
    CounterAppend(ws, servers, [], i);
    LatestAppend([], i);
  }

  /** A right counter stays right exactly when the next delivery is proper. */
  lemma NextDelivery(ws: seq<Player>, servers: seq<int>, d: seq<nat>, i: nat)
    requires |ws| == |servers| && Deliverable(ws, d) && d != [] && i < |ws|
    requires Deliverable(ws, d + [i]) && RightNow(ws, servers, d)
    ensures RightNow(ws, servers, d + [i]) <==> Proper(ws, servers, d, i)
  {
    var c, last, latest := CounterOver(ws, servers, d), d[|d| - 1], Latest(d);
    CounterLast(ws, servers, d);
    CounterAppend(ws, servers, d, i);
    LatestAppend(d, i);
    SpeaksForOne(ws, servers, last);
    ObserveSets(c, RowAt(ws, servers, i));
    SetsGrow(ws, last, latest);
    hide CounterOver, Latest, SpeaksFor, LastRowWinner, Observe, Play, SetWinner;
    assert RowAt(ws, servers, i).setNumber == SetNo(ws, i);
    if i > latest {
      SetsGrow(ws, latest, i);
      if SetNo(ws, i) == SetNo(ws, latest) + 1 {
        SetWinnerDecides(ws, latest, i);
      }
    } else {
      SetsGrow(ws, i, latest);
    }
  }

  // ---------------------------------------------------------------- whole feeds

  lemma Unfold(ws: seq<Player>, servers: seq<int>, d: seq<nat>, i: nat)
    requires |ws| == |servers| && Deliverable(ws, d + [i])
    ensures Deliverable(ws, d) && i < |ws|
    ensures RightThroughout(ws, servers, d + [i]) <==> RightThroughout(ws, servers, d) && RightNow(ws, servers, d + [i])
    ensures AllProper(ws, servers, d + [i]) <==> AllProper(ws, servers, d) && Proper(ws, servers, d, i)
    ensures d != [] && RightThroughout(ws, servers, d) ==> RightNow(ws, servers, d)
  {
    hide RightNow, Proper;
    assert (d + [i])[..|d|] == d && (d + [i])[|d|] == i;
    assert forall k :: 0 <= k < |d| ==> d[k] == (d + [i])[k];
  }

  /** For any deliveries in any order: the counter is the true set score of the latest row at
      every one of them exactly when each is proper. */
  lemma {:induction false} CountsExactly(ws: seq<Player>, servers: seq<int>, d: seq<nat>)
    requires |ws| == |servers| && Deliverable(ws, d)
    ensures RightThroughout(ws, servers, d) <==> AllProper(ws, servers, d)
  {
    if d != [] {
      hide RightNow, Proper, RightThroughout, AllProper, Deliverable;
      var init, i := d[..|d| - 1], d[|d| - 1];
      assert d == init + [i];
      Unfold(ws, servers, init, i);
      CountsExactly(ws, servers, init);
      if init == [] {
        assert d == [i];
        FirstDelivery(ws, servers, i);
        FirstProper(ws, servers, i);
      } else if RightThroughout(ws, servers, init) {
        NextDelivery(ws, servers, init, i);
      }
    }
  }

  lemma FirstProper(ws: seq<Player>, servers: seq<int>, i: nat)
    requires i < |ws| == |servers|
    ensures Proper(ws, servers, [], i) <==> SetNo(ws, i) == 1
  {
  }

  /** Rows that come in order, each any number of times in a row, are proper. */
  predicate Steady(d: seq<nat>) {
    (d != [] ==> d[0] == 0) && forall k :: 1 <= k < |d| ==> d[k] == d[k - 1] || d[k] == d[k - 1] + 1
  }

  /** A set's last row speaks for its winner: the leader, or at six games all the scorer. */
  lemma LastRowSpeaks(s: State, server: int, w: Player)
    requires InPlay(s) && WinsSet(s, w)
    ensures SpeaksFor(RowOf(s, server, w)) == w.Number()
  {
  }

  lemma SteadyStep(ws: seq<Player>, servers: seq<int>, d: seq<nat>, i: nat)
    requires Playable(ws) && |ws| == |servers| && Deliverable(ws, d) && i < |ws|
    requires if d == [] then i == 0 else Latest(d) == d[|d| - 1] && (i == d[|d| - 1] || i == d[|d| - 1] + 1)
    ensures Proper(ws, servers, d, i)
  {
    if d == [] {
      assert ws[..0] == [];
    } else {
      var last := d[|d| - 1];
      if SetNo(ws, i) > SetNo(ws, last) {
        PlayablePrefix(ws, last);
        PlayInPlay(ws[..last]);
        assert ws[..i][..last] == ws[..last];
        assert Play(ws[..i]) == Step(Play(ws[..last]), ws[last]);
        hide Play, SpeaksFor, Latest;
        LastRowSpeaks(Play(ws[..last]), servers[last], ws[last]);
      }
    }
  }

  lemma {:induction false} SteadyProper(ws: seq<Player>, servers: seq<int>, d: seq<nat>)
    requires Playable(ws) && |ws| == |servers| && Deliverable(ws, d) && Steady(d)
    ensures AllProper(ws, servers, d)
    ensures d != [] ==> Latest(d) == d[|d| - 1]
  {
    if d != [] {
      hide Proper, AllProper, RightThroughout, RightNow, Playable, Latest;
      var init, i := d[..|d| - 1], d[|d| - 1];
      assert d == init + [i];
      SteadyProper(ws, servers, init);
      LatestAppend(init, i);
      SteadyStep(ws, servers, init, i);
      Unfold(ws, servers, init, i);
    }
  }

  // ---------------------------------------------------------------- signals

  predicate Before(x: Key, y: Key) {
    x.0 < y.0 || (x.0 == y.0 && (x.1 < y.1 || (x.1 == y.1 && x.2 < y.2)))
  }

  /** Sets, games and points are numbered in the order in which they are played, so no two
      rows of a match share a key. */
  lemma {:induction false} KeysGrow(ws: seq<Player>, servers: seq<int>, i: nat, n: nat)
    requires i < n < |ws| == |servers|
    ensures Before(KeyOf(RowAt(ws, servers, i)), KeyOf(RowAt(ws, servers, n)))
  {
    assert ws[..n][..n - 1] == ws[..n - 1];
    assert Before(KeyOf(RowAt(ws, servers, n - 1)), KeyOf(RowAt(ws, servers, n)));
    if i < n - 1 {
      KeysGrow(ws, servers, i, n - 1);
    }
  }

  function Keys(ws: seq<Player>, servers: seq<int>, d: seq<nat>): set<Key>
    requires |ws| == |servers| && Deliverable(ws, d)
  {
    set k | 0 <= k < |d| :: KeyOf(RowAt(ws, servers, d[k]))
  }

  /** A row's key was seen exactly when the row was. */
  lemma SeenExactly(ws: seq<Player>, servers: seq<int>, d: seq<nat>, i: nat)
    requires |ws| == |servers| && Deliverable(ws, d) && i < |ws|
    ensures KeyOf(RowAt(ws, servers, i)) in Keys(ws, servers, d) <==> i in d
  {
    hide RowAt;
    forall k | 0 <= k < |d| && d[k] != i
      ensures KeyOf(RowAt(ws, servers, d[k])) != KeyOf(RowAt(ws, servers, i))
    {
      if d[k] < i {
        KeysGrow(ws, servers, d[k], i);
      } else {
        KeysGrow(ws, servers, i, d[k]);
      }
    }
  }

  /** What the signal at row `i` after the deliveries `d` must be: none for a row seen before;
      for a new row of the set being played, if all went properly, the exact one. */
  ghost predicate SignalRight(ws: seq<Player>, servers: seq<int>, d: seq<nat>, i: nat, includeSetPoints: bool,
                              signal: Option<SetPointSignal>)
    requires |ws| == |servers| && Deliverable(ws, d + [i]) && i < |ws|
  {
    && (i in d ==> signal.None?)
    && (i !in d && AllProper(ws, servers, d + [i]) && SetNo(ws, i) == SetNo(ws, Latest(d + [i])) ==>
          SignalExact(Play(ws[..i]), includeSetPoints, signal))
  }

  /** The tracker's signal at a delivery is right. */
  lemma SignalAt(ws: seq<Player>, servers: seq<int>, d: seq<nat>, i: nat, includeSetPoints: bool)
    requires Playable(ws) && |ws| == |servers| && Deliverable(ws, d + [i]) && i < |ws| && Representable(Play(ws[..i]))
    ensures var c, row := CounterOver(ws, servers, d + [i]), RowAt(ws, servers, i);
            SignalRight(ws, servers, d, i, includeSetPoints,
                        if i in d then None else DetectSetPoint(c.setsHome, c.setsAway, includeSetPoints, row))
  {
    var e := d + [i];
    if i !in d && AllProper(ws, servers, e) && SetNo(ws, i) == SetNo(ws, Latest(e)) {
      CountsExactly(ws, servers, e);
      assert RightNow(ws, servers, e);
      assert i <= Latest(e) by { assert e[|d|] == i; }
      SetsGrow(ws, i, Latest(e));
      PlayablePrefix(ws, i);
      PlayInPlay(ws[..i]);
      hide AllProper, RightThroughout, CounterOver, Latest, SignalExact, DetectSetPoint, RowOf, Play, Representable;
      SetPointExact(Play(ws[..i]), servers[i], ws[i], includeSetPoints);
    }
  }

  /** The tracker has been fed the deliveries `d`. */
  ghost predicate Fed(tracker: MatchTracker, ws: seq<Player>, servers: seq<int>, d: seq<nat>)
    requires |ws| == |servers| && Deliverable(ws, d)
    reads tracker
  {
    tracker.View() == CounterOver(ws, servers, d) && tracker.seenPoints == Keys(ws, servers, d)
  }

  method Deliver(tracker: MatchTracker, ws: seq<Player>, servers: seq<int>, ghost d: seq<nat>, i: nat, includeSetPoints: bool)
    returns (signal: Option<SetPointSignal>)
    requires Playable(ws) && |ws| == |servers| && Deliverable(ws, d) && i < |ws| && Representable(Play(ws[..i]))
    requires Deliverable(ws, d + [i]) && Fed(tracker, ws, servers, d)
    modifies tracker
    ensures Fed(tracker, ws, servers, d + [i])
    ensures SignalRight(ws, servers, d, i, includeSetPoints, signal)
  {
    hide SignalRight, RowAt, Observe, DetectSetPoint, Play, Keys, CounterOver, Deliverable;
    CounterAppend(ws, servers, d, i);
    KeysAppend(ws, servers, d, i);
    SeenExactly(ws, servers, d, i);
    SignalAt(ws, servers, d, i, includeSetPoints);
    signal := tracker.OnPoint(RowAt(ws, servers, i), includeSetPoints);
  }

  lemma DeliverablePrefix(ws: seq<Player>, d: seq<nat>, k: nat)
    requires Deliverable(ws, d) && k < |d|
    ensures Deliverable(ws, d[..k]) && d[..k + 1] == d[..k] + [d[k]] && Deliverable(ws, d[..k + 1]) && d[k] < |ws|
  {
  }

  /** The signal at delivery `k` is right. */
  ghost predicate RightAt(ws: seq<Player>, servers: seq<int>, d: seq<nat>, k: nat, includeSetPoints: bool, signal: Option<SetPointSignal>)
    requires |ws| == |servers| && Deliverable(ws, d) && k < |d|
  {
    DeliverablePrefix(ws, d, k);
    SignalRight(ws, servers, d[..k], d[k], includeSetPoints, signal)
  }

  /** A tracker fed any deliveries gives the right signal at each of them. */
  method Watch(ws: seq<Player>, servers: seq<int>, d: seq<nat>, includeSetPoints: bool)
    returns (signals: seq<Option<SetPointSignal>>)
    requires Playable(ws) && |ws| == |servers| && Deliverable(ws, d)
    requires forall i :: 0 <= i < |ws| ==> Representable(Play(ws[..i]))
    ensures |signals| == |d|
    ensures forall k :: 0 <= k < |d| ==> RightAt(ws, servers, d, k, includeSetPoints, signals[k])
  {
    var tracker := new MatchTracker();
    signals := [];
    NothingDelivered(tracker, ws, servers, d);
    hide SignalRight, Play, Fed, Representable, Playable;
    for n := 0 to |d|
      invariant |signals| == n && fresh(tracker)
      invariant Deliverable(ws, d[..n]) && Fed(tracker, ws, servers, d[..n])
      invariant forall k :: 0 <= k < n ==> RightAt(ws, servers, d, k, includeSetPoints, signals[k])
    {
      DeliverablePrefix(ws, d, n);
      var signal := Deliver(tracker, ws, servers, d[..n], d[n], includeSetPoints);
      signals := signals + [signal];
    }
  }

  lemma NothingDelivered(tracker: MatchTracker, ws: seq<Player>, servers: seq<int>, d: seq<nat>)
    requires |ws| == |servers| && tracker.View() == NewCounter && tracker.seenPoints == {}
    ensures Deliverable(ws, d[..0]) && Fed(tracker, ws, servers, d[..0])
  {
    assert Keys(ws, servers, d[..0]) == {};
  }

  lemma KeysAppend(ws: seq<Player>, servers: seq<int>, d: seq<nat>, i: nat)
    requires |ws| == |servers| && Deliverable(ws, d) && i < |ws| && Deliverable(ws, d + [i])
    ensures Keys(ws, servers, d + [i]) == Keys(ws, servers, d) + {KeyOf(RowAt(ws, servers, i))}
  {
    var e := d + [i];
    assert e[|d|] == i && forall k :: 0 <= k < |d| ==> e[k] == d[k];
    hide RowAt;
  }

  // ---------------------------------------------------------------- rows of the live-data poller

  /** The poller writes no point number and no scorer. */
  function Polled(p: Row): Row { p.(pointNumber := 0, scorer := 0) }

  /** Its rows of one game share a key, so only the first of them can give a signal; and at
      six games all its rows speak for nobody, so a set won in a tie-break is not counted. */
  lemma PolledRows(s: State, s': State, server: int, w: Player, w': Player)
    requires InPlay(s) && s.sets == s'.sets && s.games == s'.games
    ensures KeyOf(Polled(RowOf(s, server, w))) == KeyOf(Polled(RowOf(s', server, w')))
    ensures SpeaksFor(Polled(RowOf(s, server, w))) == 0 <==> s.games.home == s.games.away
    ensures WinsSet(s, w) ==> (SpeaksFor(Polled(RowOf(s, server, w))) == w.Number() <==> !InTiebreak(s))
  {
  }

  // ---------------------------------------------------------------- an old row comes again

  /** A match that home wins without losing a point. */
  const Whitewash: seq<Player> := seq(48, i => Home)
  const HomeServes: seq<int> := seq(48, i => 1)

  function Clean(s: nat, g: nat, q: nat): State { State(Pair(s, 0), Pair(g, 0), Pair(q, 0)) }

  lemma CleanStep(s: nat, g: nat, q: nat)
    requires g < 6 && q < 4
    ensures Step(Clean(s, g, q), Home) ==
            if q < 3 then Clean(s, g, q + 1) else if g < 5 then Clean(s, g + 1, 0) else Clean(s + 1, 0, 0)
  {
  }

  lemma WhitewashStart()
    ensures Play(Whitewash[..0]) == Clean(0, 0, 0)
  {
    assert Whitewash[..0] == [];
  }

  lemma WhitewashNext(i: nat)
    requires 0 < i < 48
    ensures Play(Whitewash[..i]) == Step(Play(Whitewash[..i - 1]), Home)
  {
    hide Step;
    assert Whitewash[..i][..i - 1] == Whitewash[..i - 1] && Whitewash[..i][i - 1] == Home;
  }

  lemma {:induction false} WhitewashAt(s: nat, g: nat, q: nat)
    requires s < 2 && g < 6 && q < 4
    ensures Play(Whitewash[..24 * s + 4 * g + q]) == Clean(s, g, q)
    decreases s, g, q
  {
    hide Play, Step, Whitewash;
    var i := 24 * s + 4 * g + q;
    if i == 0 {
      WhitewashStart();
    } else {
      WhitewashNext(i);
      if q > 0 {
        WhitewashAt(s, g, q - 1);
        CleanStep(s, g, q - 1);
      } else if g > 0 {
        WhitewashAt(s, g - 1, 3);
        CleanStep(s, g - 1, 3);
      } else {
        WhitewashAt(s - 1, 5, 3);
        CleanStep(s - 1, 5, 3);
      }
    }
  }

  /** Delivering the row of `g` games to love, `q` points to love, in set `s + 1`. */
  lemma WhitewashRow(d: seq<nat>, s: nat, g: nat, q: nat)
    requires s < 2 && g < 6 && q < 4 && Deliverable(Whitewash, d)
    ensures var i := 24 * s + 4 * g + q;
            var c := CounterOver(Whitewash, HomeServes, d);
            && Deliverable(Whitewash, d + [i])
            && CounterOver(Whitewash, HomeServes, d + [i]) ==
                 Counter(c.setsHome + (if s + 1 > c.lastSetNum > 0 && LastRowWinner(c) == 1 then 1 else 0),
                         c.setsAway + (if s + 1 > c.lastSetNum > 0 && LastRowWinner(c) == 2 then 1 else 0), s + 1, g, 0, 1)
  {
    var i := 24 * s + 4 * g + q;
    WhitewashAt(s, g, q);
    assert Whitewash[i] == Home;
    hide Play, CounterOver, Whitewash, HomeServes;
    CounterAppend(Whitewash, HomeServes, d, i);
  }

  /** The first row of the match comes again once the second set is on: the next row credits
      home with a second set, and no signal is given at match point. */
  lemma OldRowAgain()
    ensures var d := [0, 23, 24, 0, 47];
            && Deliverable(Whitewash, d)
            && CounterOver(Whitewash, HomeServes, d).setsHome == 2
            && WinsMatch(Play(Whitewash[..47]), Home)
            && DetectSetPoint(2, 0, true, RowAt(Whitewash, HomeServes, 47)).None?
  {
    OldRowAgainCounts();
    WhitewashAt(1, 5, 3);
    hide Play, CounterOver, Whitewash, HomeServes, RowAt;
  }

  lemma OldRowAgainCounts()
    ensures var d := [0, 23, 24, 0, 47];
            Deliverable(Whitewash, d) && CounterOver(Whitewash, HomeServes, d).setsHome == 2
  {
    var d0: seq<nat> := [];
    assert CounterOver(Whitewash, HomeServes, d0) == NewCounter;
    var d1, d2, d3, d4, d5 := d0 + [0], d0 + [0] + [23], d0 + [0] + [23] + [24], d0 + [0] + [23] + [24] + [0],
                              d0 + [0] + [23] + [24] + [0] + [47];
    assert d5 == [0, 23, 24, 0, 47];
    hide CounterOver, Whitewash, HomeServes;
    WhitewashRow(d0, 0, 0, 0);
    WhitewashRow(d1, 0, 5, 3);
    assert CounterOver(Whitewash, HomeServes, d2) == Counter(0, 0, 1, 5, 0, 1);
    WhitewashRow(d2, 1, 0, 0);
    assert CounterOver(Whitewash, HomeServes, d3) == Counter(1, 0, 2, 0, 0, 1);
    WhitewashRow(d3, 0, 0, 0);
    WhitewashRow(d4, 1, 5, 3);
  }
}
