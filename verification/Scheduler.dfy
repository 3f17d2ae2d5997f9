/** The scheduler's pending map, shared by one scheduling goroutine and any number of
    cancellable waiters, as a machine whose steps are the lock-protected sections and the
    cancellations between them.
 */
module Scheduler {
  import opened Wrappers

  datatype Phase = Waiting | Fired | Finished

  /** A goroutine started by `scheduleLater`; `cancelled` is its context. */
  datatype Waiter = Waiter(market: string, startAt: int, cancelled: bool, phase: Phase)

  /** An entry's cancel function stands for its waiter. */
  datatype Entry = Entry(startAt: int, owner: nat)

  /** Where the scheduling pass is with the market at hand. */
  datatype Pass =
    | Idle
    | Looked(market: string, found: Option<Entry>, start: int, due: bool)
    | Cancelled(market: string, owner: nat, start: int, due: bool)
    | Inserting(market: string, start: int)

  datatype State = State(pending: map<string, Entry>, waiters: seq<Waiter>, pass: Pass, shutdown: bool)

  const Start := State(map[], [], Idle, false)

  datatype Step =
    | Look(market: string, start: int, due: bool)  // read the map; `start`, `due` from the database and the clock
    | Act                                          // the pass's next action on that market
    | Fire(waiter: nat)                            // a waiter's timer wins its select, or its time had passed
    | Update(waiter: nat)                          // a waiter's own map update
    | Shutdown

  predicate Enabled(s: State, step: Step) {
    match step
    case Look(_, _, _) => s.pass.Idle?
    case Act => !s.pass.Idle?
    case Fire(i) => i < |s.waiters| && s.waiters[i].phase == Waiting
    case Update(i) =>
      && i < |s.waiters|
      && (s.waiters[i].phase == Fired || (s.waiters[i].phase == Waiting && (s.waiters[i].cancelled || s.shutdown)))
    case Shutdown => true
  }

  /** The pass: cancel and delete a stale or due entry, then track or insert a new one. */
  function ActOn(s: State): State {
    match s.pass
    case Idle => s
    case Looked(m, None, start, due) => s.(pass := if due then Idle else Inserting(m, start))
    case Looked(m, Some(e), start, due) =>
      if (due || start != e.startAt) && e.owner < |s.waiters| then
        s.(waiters := s.waiters[e.owner := s.waiters[e.owner].(cancelled := true)],
           pass := Cancelled(m, e.owner, start, due))
      else s.(pass := Idle)
    case Cancelled(m, _, start, due) =>
      s.(pending := s.pending - {m}, pass := if due then Idle else Inserting(m, start))
    case Inserting(m, start) =>
      s.(pending := s.pending[m := Entry(start, |s.waiters|)],
         waiters := s.waiters + [Waiter(m, start, false, Waiting)],
         pass := Idle)
  }

  /** Whether waiter `i`'s update deletes its market's entry: always once its timer has
      fired, on cancellation only if the entry has the waiter's own start time. */
  predicate Deletes(s: State, i: nat)
    requires i < |s.waiters|
  {
    var w := s.waiters[i];
    w.market in s.pending && (w.phase == Fired || s.pending[w.market].startAt == w.startAt)
  }

  function Apply(s: State, step: Step): State
    requires Enabled(s, step)
  {
    match step
    case Look(m, start, due) => s.(pass := Looked(m, if m in s.pending then Some(s.pending[m]) else None, start, due))
    case Act => ActOn(s)
    case Fire(i) => s.(waiters := s.waiters[i := s.waiters[i].(phase := Fired)])
    case Update(i) =>
      s.(pending := if Deletes(s, i) then s.pending - {s.waiters[i].market} else s.pending,
         waiters := s.waiters[i := s.waiters[i].(phase := Finished)])
    case Shutdown => s.(shutdown := true)
  }

  // ---------------------------------------------------------------- runs

  /** The state a sequence of steps leads to, if each was possible when taken. */
  function Run(steps: seq<Step>): Option<State> {
    if steps == [] then Some(Start)
    else
      var before := Run(steps[..|steps| - 1]);
      if before.Some? && Enabled(before.value, steps[|steps| - 1])
      then Some(Apply(before.value, steps[|steps| - 1])) else None
  }

  lemma RunStep(steps: seq<Step>, step: Step)
    requires Run(steps).Some?
    ensures Run(steps + [step]) ==
            if Enabled(Run(steps).value, step) then Some(Apply(Run(steps).value, step)) else None
  {
    assert (steps + [step])[..|steps|] == steps;
  }

  // ---------------------------------------------------------------- the invariant

  predicate Owned(s: State, m: string, e: Entry) {
    && e.owner < |s.waiters|
    && s.waiters[e.owner].market == m && s.waiters[e.owner].startAt == e.startAt
  }

  /** Every entry has an owner that has yet to do its own map update. */
  predicate EntriesOwned(s: State) {
    forall m <- s.pending :: Owned(s, m, s.pending[m]) && s.waiters[s.pending[m].owner].phase != Finished
  }

  /** Only the pass inserts, so between its steps an entry can vanish but not change. */
  predicate PassConsistent(s: State) {
    match s.pass
    case Idle => true
    case Looked(m, None, _, _) => m !in s.pending
    case Looked(m, Some(e), _, _) => Owned(s, m, e) && (m in s.pending ==> s.pending[m] == e)
    case Cancelled(m, owner, _, _) =>
      owner < |s.waiters| && s.waiters[owner].cancelled && (m in s.pending ==> s.pending[m].owner == owner)
    case Inserting(m, _) => m !in s.pending
  }

  predicate Inv(s: State) { EntriesOwned(s) && PassConsistent(s) }

  lemma ActKeepsInv(s: State)
    requires Inv(s)
    ensures Inv(ActOn(s))
  {
    match s.pass
    case Idle =>
    case Looked(m, None, _, _) =>
    case Looked(m, Some(e), _, _) =>
    case Cancelled(m, _, _, _) =>
    case Inserting(m, start) =>
      var s' := ActOn(s);
      assert forall k <- s.pending :: s'.pending[k] == s.pending[k];
  }

  lemma UpdateKeepsInv(s: State, i: nat)
    requires Inv(s) && Enabled(s, Update(i))
    ensures Inv(Apply(s, Update(i)))
  {
    var s' := Apply(s, Update(i));
    assert forall m <- s'.pending :: m in s.pending && s'.pending[m] == s.pending[m];
    assert forall m <- s'.pending :: s'.pending[m].owner != i by {
      OwnerClears(s, i);
    }
    assert PassConsistent(s') by {
      hide EntriesOwned;
    }
  }

  lemma StepKeepsInv(s: State, step: Step)
    requires Inv(s) && Enabled(s, step)
    ensures Inv(Apply(s, step))
  {
    match step
    case Look(_, _, _) =>
    case Act => ActKeepsInv(s);
    case Fire(i) =>
    case Update(i) => UpdateKeepsInv(s, i);
    case Shutdown =>
  }

  lemma {:induction false} RunInv(steps: seq<Step>)
    requires Run(steps).Some?
    ensures Inv(Run(steps).value)
  {
    if steps != [] {
      RunInv(steps[..|steps| - 1]);
      StepKeepsInv(Run(steps[..|steps| - 1]).value, steps[|steps| - 1]);
    }
  }

  /** In every interleaving, each entry is owned by a waiter for that market and time which
      has not yet updated the map, so the map is empty once all waiters have finished. */
  lemma PendingOwned(steps: seq<Step>)
    requires Run(steps).Some?
    ensures var s := Run(steps).value;
            && (forall m <- s.pending ::
                  Owned(s, m, s.pending[m]) && s.waiters[s.pending[m].owner].phase != Finished)
            && ((forall i :: 0 <= i < |s.waiters| ==> s.waiters[i].phase == Finished) ==> s.pending == map[])
  {
    RunInv(steps);
    var s := Run(steps).value;
    if forall i :: 0 <= i < |s.waiters| ==> s.waiters[i].phase == Finished {
      assert forall m :: m !in s.pending;
    }
  }

  /** A pass never overwrites an entry. */
  lemma InsertsAreNew(steps: seq<Step>)
    requires Run(steps).Some? && Run(steps).value.pass.Inserting?
    ensures Run(steps).value.pass.market !in Run(steps).value.pending
  {
    RunInv(steps);
  }

  // ---------------------------------------------------------------- what a pass does

  /** A pass reads what the map holds. */
  lemma LookReads(s: State, m: string, start: int, due: bool)
    requires s.pass.Idle?
    ensures var s' := Apply(s, Look(m, start, due));
            && s'.pending == s.pending && s'.waiters == s.waiters
            && s'.pass.Looked? && s'.pass.market == m && s'.pass.start == start && s'.pass.due == due
            && (s'.pass.found.Some? <==> m in s.pending) && (m in s.pending ==> s'.pass.found.value == s.pending[m])
  {
  }

  /** A stale entry, or any entry of a market that is due, has its waiter cancelled and is then
      deleted, whatever happens in between. */
  lemma StaleGoes(s: State)
    requires Inv(s) && s.pass.Looked? && s.pass.found.Some?
    requires s.pass.due || s.pass.start != s.pass.found.value.startAt
    ensures ActOn(s).waiters[s.pass.found.value.owner].cancelled && ActOn(s).pending == s.pending
    ensures ActOn(s).pass == Cancelled(s.pass.market, s.pass.found.value.owner, s.pass.start, s.pass.due)
  {
  }

  lemma CancelledGoes(s: State)
    requires s.pass.Cancelled?
    ensures ActOn(s).pending == s.pending - {s.pass.market} && ActOn(s).waiters == s.waiters
    ensures ActOn(s).pass == if s.pass.due then Idle else Inserting(s.pass.market, s.pass.start)
  {
  }

  /** When a pass is done with a market, in any interleaving: a due market has no entry; any
      other has one for the start time the pass came with, unless the entry it found for that
      time was cleared by its waiter meanwhile.  Other markets' entries are as they were. */
  lemma PassEnds(s: State)
    requires Inv(s) && !s.pass.Idle? && ActOn(s).pass.Idle?
    ensures var m, s' := s.pass.market, ActOn(s);
            && (forall k :: k != m ==> (k in s'.pending <==> k in s.pending) && (k in s.pending ==> s'.pending[k] == s.pending[k]))
            && ((s.pass.Looked? || s.pass.Cancelled?) && s.pass.due ==> m !in s'.pending)
            && (s.pass.Inserting? || !s.pass.due ==>
                  if m in s'.pending then s'.pending[m].startAt == s.pass.start
                  else s.pass.Looked? && s.pass.found.Some? && s.pass.found.value.startAt == s.pass.start)
            && (s.pass.Inserting? ==>
                  && |s'.waiters| == |s.waiters| + 1
                  && s'.pending[m] == Entry(s.pass.start, |s.waiters|)
                  && s'.waiters[|s.waiters|] == Waiter(m, s.pass.start, false, Waiting))
  {
  }

  /** A waiter updates the map once its timer has fired, or when it is cancelled or shut down
      while waiting.  That deletes its market's entry if the timer had fired or the entry has
      the waiter's own start time, and touches nothing else. */
  lemma UpdateExactly(s: State, i: nat)
    requires i < |s.waiters|
    ensures var w := s.waiters[i];
            Enabled(s, Update(i)) <==> w.phase == Fired || (w.phase == Waiting && (w.cancelled || s.shutdown))
    ensures Enabled(s, Update(i)) ==>
              var w, s' := s.waiters[i], Apply(s, Update(i));
              && s'.waiters == s.waiters[i := w.(phase := Finished)] && s'.pass == s.pass && s'.shutdown == s.shutdown
              && s'.pending ==
                   if w.market in s.pending && (w.phase == Fired || s.pending[w.market].startAt == w.startAt)
                   then s.pending - {w.market} else s.pending
  {
  }

  /** A due market from start to end: its waiter is cancelled and its entry gone. */
  lemma DuePass(steps: seq<Step>, m: string, start: int)
    requires Run(steps).Some? && Run(steps).value.pass.Idle? && m in Run(steps).value.pending
    ensures var s := Run(steps).value;
            var i := s.pending[m].owner;
            && i < |s.waiters|
            && Run(steps + [Look(m, start, true)] + [Act] + [Act]) == Some(
                 State(s.pending - {m}, s.waiters[i := s.waiters[i].(cancelled := true)], Idle, s.shutdown))
  {
    RunInv(steps);
    RunStep(steps, Look(m, start, true));
    RunStep(steps + [Look(m, start, true)], Act);
    RunStep(steps + [Look(m, start, true)] + [Act], Act);
    hide Run;
  }

  /** A market whose time has not changed is left alone. */
  lemma SamePass(steps: seq<Step>, m: string)
    requires Run(steps).Some? && Run(steps).value.pass.Idle? && m in Run(steps).value.pending
    ensures Run(steps + [Look(m, Run(steps).value.pending[m].startAt, false)] + [Act]) == Run(steps)
  {
    var look := Look(m, Run(steps).value.pending[m].startAt, false);
    RunStep(steps, look);
    RunStep(steps + [look], Act);
    hide Run;
  }

  // ---------------------------------------------------------------- every entry gets cleared

  /** An owner's own update always clears its entry, by either path. */
  lemma OwnerClears(s: State, i: nat)
    requires Inv(s) && Enabled(s, Update(i))
    ensures forall m <- Apply(s, Update(i)).pending :: Apply(s, Update(i)).pending[m].owner != i
  {
  }

  function Unfinished(s: State): set<nat> {
    set i: nat | i < |s.waiters| && s.waiters[i].phase != Finished
  }

  /** From any state some run of the waiters alone empties the map. */
  lemma {:induction false} Drain(steps: seq<Step>) returns (more: seq<Step>)
    requires Run(steps).Some?
    ensures Run(steps + more).Some? && Run(steps + more).value.pending == map[]
    ensures forall j :: 0 <= j < |more| ==> more[j].Fire? || more[j].Update?
    decreases |Unfinished(Run(steps).value)|
  {
    hide Run, Apply;
    var s := Run(steps).value;
    if Unfinished(s) == {} {
      more := [];
      assert steps + more == steps;
      forall i | 0 <= i < |s.waiters|
        ensures s.waiters[i].phase == Finished
      {
        assert (i as nat) !in Unfinished(s);
      }
      PendingOwned(steps);
    } else {
      var i :| i in Unfinished(s);
      var first := if s.waiters[i].phase == Waiting then [Fire(i), Update(i)] else [Update(i)];
      ghost var s' := FinishOne(steps, i);
      assert Unfinished(s') == Unfinished(s) - {i};
      var rest := Drain(steps + first);
      more := first + rest;
      assert steps + first + rest == steps + more;
    }
  }

  lemma FinishOne(steps: seq<Step>, i: nat) returns (s': State)
    requires Run(steps).Some? && i in Unfinished(Run(steps).value)
    ensures var s := Run(steps).value;
            var first := if s.waiters[i].phase == Waiting then [Fire(i), Update(i)] else [Update(i)];
            && Run(steps + first) == Some(s')
            && |s'.waiters| == |s.waiters| && s'.waiters[i].phase == Finished
            && forall j :: 0 <= j < |s.waiters| && j != i ==> s'.waiters[j] == s.waiters[j]
  {
    var s := Run(steps).value;
    if s.waiters[i].phase == Waiting {
      RunStep(steps, Fire(i));
      RunStep(steps + [Fire(i)], Update(i));
      assert steps + [Fire(i)] + [Update(i)] == steps + [Fire(i), Update(i)];
      s' := Apply(Apply(s, Fire(i)), Update(i));
    } else {
      RunStep(steps, Update(i));
      s' := Apply(s, Update(i));
    }
  }

  // ---------------------------------------------------------------- one waiter per slot?

  /** Every waiter that is still wanted holds its market's slot: no market is waited for
      twice, and no wanted waiter is unknown to the pass. */
  predicate Exclusive(s: State) {
    forall i :: 0 <= i < |s.waiters| && s.waiters[i].phase != Finished && !s.waiters[i].cancelled ==>
      s.waiters[i].market in s.pending && s.pending[s.waiters[i].market].owner == i
  }

  /** The update of a waiter that has been replaced deletes its successor's entry: its timer
      had already fired when it was cancelled, or the two have the same start time. */
  predicate Steals(s: State, step: Step) {
    && step.Update? && step.waiter < |s.waiters|
    && var w := s.waiters[step.waiter];
       && Deletes(s, step.waiter)
       && s.pending[w.market].owner != step.waiter
       && s.pending[w.market].owner < |s.waiters|
       && !s.waiters[s.pending[w.market].owner].cancelled
  }

  /** Exclusiveness survives a step exactly when the step steals no entry. */
  lemma ExclusiveStep(s: State, step: Step)
    requires Inv(s) && Exclusive(s) && Enabled(s, step)
    ensures Exclusive(Apply(s, step)) <==> !Steals(s, step)
  {
    var s' := Apply(s, step);
    if step.Update? {
      var i := step.waiter;
      if Steals(s, step) {
        var j := s.pending[s.waiters[i].market].owner;
        assert s'.waiters[j] == s.waiters[j];
      }
    } else if step.Act? && s.pass.Looked? && s.pass.found.Some? {
    }
  }

  predicate NoSteals(steps: seq<Step>) {
    forall n :: 0 <= n < |steps| ==> Run(steps[..n]).Some? ==> !Steals(Run(steps[..n]).value, steps[n])
  }

  predicate AlwaysExclusive(steps: seq<Step>) {
    forall n :: 0 <= n <= |steps| ==> Run(steps[..n]).Some? ==> Exclusive(Run(steps[..n]).value)
  }

  lemma LastStep(steps: seq<Step>)
    requires Run(steps).Some? && steps != []
    ensures var init := steps[..|steps| - 1];
            && Run(init).Some?
            && (NoSteals(steps) <==> NoSteals(init) && !Steals(Run(init).value, steps[|steps| - 1]))
            && (AlwaysExclusive(steps) <==> AlwaysExclusive(init) && Exclusive(Run(steps).value))
  {
    hide Exclusive, Steals;
    var init := steps[..|steps| - 1];
    assert steps[..|steps|] == steps && forall n :: 0 <= n <= |init| ==> init[..n] == steps[..n];
  }

  /** Throughout a run every wanted waiter holds its market's slot, so that no market is
      waited for twice, exactly when no step steals an entry. */
  lemma {:induction false} ExclusiveRuns(steps: seq<Step>)
    requires Run(steps).Some?
    ensures AlwaysExclusive(steps) <==> NoSteals(steps)
  {
    if steps == [] {
      assert steps[..0] == [];
    } else {
      var init := steps[..|steps| - 1];
      LastStep(steps);
      ExclusiveRuns(init);
      RunInv(init);
      if AlwaysExclusive(init) {
        assert init[..|init|] == init;
        ExclusiveStep(Run(init).value, steps[|steps| - 1]);
      }
    }
  }

  /** The first steps of both examples: market "M" is scheduled for time 5. */
  const Scheduled: seq<Step> := [Look("M", 5, false), Act, Act]

  lemma ScheduledState()
    ensures Run(Scheduled) == Some(State(map["M" := Entry(5, 0)], [Waiter("M", 5, false, Waiting)], Idle, false))
  {
    RunStep([], Look("M", 5, false));
    RunStep([Look("M", 5, false)], Act);
    RunStep([Look("M", 5, false), Act], Act);
    assert [] + [Look("M", 5, false)] == [Look("M", 5, false)];
    assert [Look("M", 5, false)] + [Act] == [Look("M", 5, false), Act];
    assert [Look("M", 5, false), Act] + [Act] == Scheduled;
    assert Run([Look("M", 5, false), Act]) == Some(State(map[], [], Inserting("M", 5), false));
    assert [] + [Waiter("M", 5, false, Waiting)] == [Waiter("M", 5, false, Waiting)];
  }

  /** A pass on an entry whose time has moved: read, cancel, delete, insert. */
  lemma Reschedule(steps: seq<Step>, m: string, start: int)
    requires Run(steps).Some? && Run(steps).value.pass.Idle?
    requires m in Run(steps).value.pending && Run(steps).value.pending[m].startAt != start
    ensures var s := Run(steps).value;
            var e := s.pending[m];
            && e.owner < |s.waiters|
            && Run(steps + [Look(m, start, false), Act, Act, Act]) == Some(
                 State(s.pending[m := Entry(start, |s.waiters|)],
                       s.waiters[e.owner := s.waiters[e.owner].(cancelled := true)] + [Waiter(m, start, false, Waiting)],
                       Idle, s.shutdown))
  {
    RunInv(steps);
    var s := Run(steps).value;
    RunStep(steps, Look(m, start, false));
    var t1 := steps + [Look(m, start, false)];
    RunStep(t1, Act);
    RunStep(t1 + [Act], Act);
    RunStep(t1 + [Act] + [Act], Act);
    assert t1 + [Act] + [Act] + [Act] == steps + [Look(m, start, false), Act, Act, Act];
    assert (s.pending - {m})[m := Entry(start, |s.waiters|)] == s.pending[m := Entry(start, |s.waiters|)];
  }

  /** A timer that fires just before its market is moved: the old waiter then deletes the
      new waiter's entry, which still waits, unknown to the pass. */
  lemma TimerRace()
    ensures var steps := Scheduled + [Fire(0)] + [Look("M", 9, false), Act, Act, Act] + [Update(0)];
            && Run(steps) == Some(State(map[],
                 [Waiter("M", 5, true, Finished), Waiter("M", 9, false, Waiting)], Idle, false))
            && !Exclusive(Run(steps).value)
  {
    ScheduledState();
    RunStep(Scheduled, Fire(0));
    Reschedule(Scheduled + [Fire(0)], "M", 9);
    RunStep(Scheduled + [Fire(0)] + [Look("M", 9, false), Act, Act, Act], Update(0));
    var s := Run(Scheduled + [Fire(0)] + [Look("M", 9, false), Act, Act, Act] + [Update(0)]).value;
    assert s.pending == map[];
    assert s.waiters == [Waiter("M", 5, true, Finished), Waiter("M", 9, false, Waiting)];
    assert s.waiters[1] == Waiter("M", 9, false, Waiting);
  }

  /** A market moved away and back before its first waiter wakes to its cancellation: start
      times are equal, so the first waiter takes the third one's entry for its own. */
  lemma MovedBack()
    ensures var steps := Scheduled + [Look("M", 9, false), Act, Act, Act] + [Look("M", 5, false), Act, Act, Act] + [Update(0)];
            && Run(steps).Some? && Run(steps).value.pending == map[]
            && !Exclusive(Run(steps).value)
  {
    ScheduledState();
    Reschedule(Scheduled, "M", 9);
    Reschedule(Scheduled + [Look("M", 9, false), Act, Act, Act], "M", 5);
    var before := Scheduled + [Look("M", 9, false), Act, Act, Act] + [Look("M", 5, false), Act, Act, Act];
    RunStep(before, Update(0));
    var s := Run(before + [Update(0)]).value;
    assert s.pending == map[];
    assert s.waiters[2] == Waiter("M", 5, false, Waiting);
  }
}
