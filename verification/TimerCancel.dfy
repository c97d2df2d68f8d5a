/** When a cancel keeps a timer's callback from ever running again: the exact condition. */
module TimerCancel {
  import opened TimerSet
  import opened TimerModel
  import opened TimerInv
  import opened TimerSteps
  import opened TimerTheorems

  // ---------------------------------------------------------------------------------------
  // Timers that never run again
  // ---------------------------------------------------------------------------------------

  lemma StepLog(q: Queue, s: Step)
    requires Inv(q) && Enabled(q, s) && AssertsHold(q, s)
    ensures q.log <= After(q, s).log
  {
    if s.FinishStep? {
      BatchResets(q, s.later);
      FinishFrame(q, s.later);
      ResetAllKeeps(q, q.phase.batch);
    }
  }

  lemma {:induction false} LogGrowsOnly(q: Queue, steps: seq<Step>, t: Queue)
    requires Inv(q) && Leads(q, steps, t)
    ensures q.log <= t.log && Inv(t)
    decreases |steps|
  {
    if steps == [] {
    } else {
      StepLog(q, steps[0]);
      StepKeepsInv(q, steps[0]);
      LogGrowsOnly(After(q, steps[0]), steps[1..], t);
    }
  }

  /** A one-shot whose callback was started is in the log, and a timer that runs again repeats. */
  lemma StartedOnce(q: Queue, a: nat, steps: seq<Step>, t: Queue)
    requires Inv(q) && InFlight(Started(q), a) && a in q.heap && !q.heap[a].Repeated() && Leads(q, steps, t)
    ensures SilentSince(q, t, q.heap[a].sequence)
  {
    LogGrowsOnly(q, steps, t);
    var i := LoggedStart(q, a);
    var n := q.heap[a].sequence;
    forall r | r in t.log[|q.log|..] ensures r.sequence != n {
      var j :| |q.log| <= j < |t.log| && t.log[j] == r;
      assert t.log[i] == q.log[i];
    }
  }

  lemma LoggedStart(q: Queue, a: nat) returns (i: nat)
    requires FireOk(q) && LogFits(q, Started(q)) && InFlight(Started(q), a) && a in q.heap
    ensures i < |q.log| && q.log[i].sequence == q.heap[a].sequence && q.log[i].interval == q.heap[a].interval
  {
    var e :| e in Started(q) && e.addr == a;
    var k :| 0 <= k < q.phase.ran && q.phase.batch[k] == e;
    i := q.phase.mark + k;
    assert q.log[i] in q.log;
  }

  // ---------------------------------------------------------------------------------------
  // Timers that do run again
  // ---------------------------------------------------------------------------------------

  /** Some continuation runs the callback of the timer with sequence number n. */
  ghost predicate RunsAgain(q: Queue, n: nat) {
    exists steps: seq<Step>, t: Queue :: Leads(q, steps, t) && !SilentSince(q, t, n)
  }

  lemma LeadsCons(q: Queue, s: Step, steps: seq<Step>, t: Queue)
    requires Enabled(q, s) && AssertsHold(q, s) && Leads(After(q, s), steps, t)
    ensures Leads(q, [s] + steps, t)
  {
    assert ([s] + steps)[1..] == steps;
  }

  lemma LogsAfter(q: Queue, s: Step, steps: seq<Step>, t: Queue)
    requires Inv(q) && Enabled(q, s) && AssertsHold(q, s) && Leads(After(q, s), steps, t)
    ensures q.log <= After(q, s).log <= t.log
  {
    StepKeepsInv(q, s);
    StepLog(q, s);
    LogGrowsOnly(After(q, s), steps, t);
  }

  lemma RunsAfter(q: Queue, s: Step, n: nat)
    requires Inv(q) && Enabled(q, s) && AssertsHold(q, s) && RunsAgain(After(q, s), n)
    ensures RunsAgain(q, n)
  {
    var m := After(q, s);
    var steps, t :| Leads(m, steps, t) && !SilentSince(m, t, n);
    LeadsCons(q, s, steps, t);
    LogsAfter(q, s, steps, t);
    NoiseLasts(q, m, t, n);
  }

  lemma NoiseLasts(q: Queue, m: Queue, t: Queue, n: nat)
    requires q.log <= m.log <= t.log && !SilentSince(m, t, n)
    ensures !SilentSince(q, t, n)
  {
    assert t.log[|q.log|..] == m.log[|q.log|..] + t.log[|m.log|..];
  }

  /** The callback of a batch member that has not been started is started in its turn. */
  lemma {:induction false} TurnComes(q: Queue, k: nat)
    requires Inv(q) && q.phase.Firing? && q.phase.ran <= k < |q.phase.batch|
    ensures q.phase.batch[k].addr in q.heap && RunsAgain(q, q.heap[q.phase.batch[k].addr].sequence)
    decreases k - q.phase.ran
  {
    StepKeepsInv(q, RunStep);
    assert q.phase.batch[k] in q.phase.batch;
    if q.phase.ran == k {
      RunsNow(q);
    } else {
      TurnComes(After(q, RunStep), k);
      RunsAfter(q, RunStep, q.heap[q.phase.batch[k].addr].sequence);
    }
  }

  lemma RunsNow(q: Queue)
    requires Enabled(q, RunStep) && AssertsHold(q, RunStep)
    ensures RunsAgain(q, q.heap[q.phase.batch[q.phase.ran].addr].sequence)
  {
    var t := After(q, RunStep);
    var steps: seq<Step> := [RunStep];
    assert Leads(t, steps[1..], t);
    assert Leads(q, steps, t);
    var r := t.log[|q.log|];
    assert t.log[|q.log|..] == [r];
    assert !SilentSince(q, t, r.sequence);
  }

  /** Outside handleRead, an active timer runs once the clock has reached its expiry. */
  lemma ActiveRuns(q: Queue, a: nat)
    requires Inv(q) && q.phase.Idle? && a in q.active
    ensures a in q.heap && RunsAgain(q, q.heap[a].sequence)
  {
    var n, e := q.heap[a].sequence, Entry(q.heap[a].expired, a);
    var to := Max(q.clock, e.due);
    StepKeepsInv(q, TickStep(to));
    DueRuns(After(q, TickStep(to)), e);
    RunsAfter(q, TickStep(to), n);
  }

  lemma DueRuns(q: Queue, e: Entry)
    requires Inv(q) && q.phase.Idle? && e in q.timers && e.due <= q.clock
    ensures e.addr in q.heap && RunsAgain(q, q.heap[e.addr].sequence)
  {
    StepKeepsInv(q, FireStep);
    var k := DueIndex(q, e);
    TurnComes(Fire(q), k);
    RunsAfter(q, FireStep, q.heap[e.addr].sequence);
  }

  lemma DueIndex(q: Queue, e: Entry) returns (k: nat)
    requires Indexed(q) && Owned(q, [], {}) && e in q.timers && e.due <= q.clock
    ensures k < |Fire(q).phase.batch| && Fire(q).phase.batch[k] == e
  {
    FireSplit(q);
    HalvesApart(q, DueCount(q.timers, q.clock), e);
    k :| 0 <= k < |Fire(q).phase.batch| && Fire(q).phase.batch[k] == e;
  }

  /** The timer is active, or a repeating member of the batch. */
  ghost predicate StaysAround(q: Queue, a: nat) {
    a in q.active || (q.phase.Firing? && InFlight(q.phase.batch, a) && a in q.heap && q.heap[a].Repeated())
  }

  lemma StaysRunning(q: Queue, a: nat)
    requires Inv(q) && StaysAround(q, a) && Enabled(q, RunStep) && AssertsHold(q, RunStep)
    ensures a in q.heap && StaysAround(RunNext(q), a) && RunNext(q).heap == q.heap
  {}

  lemma StaysFinishing(q: Queue, a: nat)
    requires AssertsHold(q, FinishStep(q.clock)) && Resetting(q, q.phase.batch) && StaysAround(q, a)
    ensures a in q.heap
    ensures var t := Finish(q, q.clock);
            t.phase.Idle? && a in t.active && a in t.heap && t.heap[a].sequence == q.heap[a].sequence
  {
    FinishFrame(q, q.clock);
    ResetAllOutcome(q, q.phase.batch, a);
  }

  /** Such a timer runs again, after the batch in flight is finished. */
  lemma {:induction false} ComesAround(q: Queue, a: nat)
    requires Inv(q) && StaysAround(q, a)
    ensures a in q.heap && RunsAgain(q, q.heap[a].sequence)
    decreases if q.phase.Firing? then 1 + |q.phase.batch| - q.phase.ran else 0
  {
    if q.phase.Idle? {
      ActiveRuns(q, a);
    } else if q.phase.ran < |q.phase.batch| {
      StepKeepsInv(q, RunStep);
      StaysRunning(q, a);
      ComesAround(RunNext(q), a);
      RunsAfter(q, RunStep, q.heap[a].sequence);
    } else {
      StepKeepsInv(q, FinishStep(q.clock));
      BatchResets(q, q.clock);
      StaysFinishing(q, a);
      ActiveRuns(Finish(q, q.clock), a);
      RunsAfter(q, FinishStep(q.clock), q.heap[a].sequence);
    }
  }

  lemma WaitingRuns(q: Queue, a: nat)
    requires Inv(q) && a in q.waiting
    ensures a in q.heap && RunsAgain(q, q.heap[a].sequence)
  {
    StepKeepsInv(q, AddStep(a));
    ComesAround(After(q, AddStep(a)), a);
    RunsAfter(q, AddStep(a), q.heap[a].sequence);
  }

  // ---------------------------------------------------------------------------------------
  // The exact condition
  // ---------------------------------------------------------------------------------------

  /** What the caller of cancel can know: the timer is active, or a one-shot of the running batch whose
      callback was already started. */
  ghost predicate CancelWorks(q: Queue, a: nat)
    requires a in q.heap
  {
    a in q.active || (InFlight(Started(q), a) && !q.heap[a].Repeated())
  }

  lemma StartedIn(q: Queue, k: nat)
    ensures q.phase.Firing? && k < q.phase.ran <= |q.phase.batch| ==> InFlight(Started(q), q.phase.batch[k].addr)
  {
    if q.phase.Firing? && k < q.phase.ran <= |q.phase.batch| { assert Started(q)[k] in Started(q); }
  }

  /** Every other living timer runs again in some continuation. */
  lemma OthersRun(q: Queue, a: nat)
    requires Inv(q) && a in q.heap && !CancelWorks(q, a)
    ensures RunsAgain(q, q.heap[a].sequence)
  {
    if a in q.waiting {
      WaitingRuns(q, a);
    } else if StaysAround(q, a) {
      ComesAround(q, a);
    } else {
      assert InFlight(Flight(q), a);
      var e :| e in q.phase.batch && e.addr == a;
      var k :| 0 <= k < |q.phase.batch| && q.phase.batch[k] == e;
      StartedIn(q, k);
      TurnComes(q, k);
    }
  }

  /** The callback of a does not run in any continuation of its cancel. */
  ghost predicate NeverRuns(q: Queue, a: nat)
    requires AssertsHold(q, CancelStep(a)) && a in q.heap
  {
    forall steps, t | Leads(CancelInLoop(q, a), steps, t) :: SilentSince(q, t, q.heap[a].sequence)
  }

  /** A cancel is final, in every continuation, exactly when it finds the timer active or a started
      one-shot of the batch. It has no effect on a timer that still waits to be added, on a member of
      the batch whose turn has not come, and on a repeating member of the batch. */
  lemma CancelFinalIff(q: Queue, a: nat)
    requires Reachable(q) && a in q.heap
    ensures AssertsHold(q, CancelStep(a))
    ensures NeverRuns(q, a) <==> CancelWorks(q, a)
  {
    NoAssertFails(q, CancelStep(a));
    if CancelWorks(q, a) {
      forall steps, t | Leads(CancelInLoop(q, a), steps, t) ensures SilentSince(q, t, q.heap[a].sequence) {
        WorkingCancel(q, a, steps, t);
      }
    } else {
      var n := q.heap[a].sequence;
      var steps, t := FailingCancel(q, a);
      assert NeverRuns(q, a) ==> SilentSince(q, t, n);
    }
  }

  lemma WorkingCancel(q: Queue, a: nat, steps: seq<Step>, t: Queue)
    requires Reachable(q) && a in q.heap && CancelWorks(q, a) && Leads(CancelInLoop(q, a), steps, t)
    ensures SilentSince(q, t, q.heap[a].sequence)
  {
    if a in q.active {
      CancelIsFinal(q, a, steps, t);
    } else {
      ReachableInv(q);
      StepKeepsInv(q, CancelStep(a));
      IgnoredCancel(q, a);
      StartedOnce(CancelInLoop(q, a), a, steps, t);
    }
  }

  lemma FailingCancel(q: Queue, a: nat) returns (steps: seq<Step>, t: Queue)
    requires Reachable(q) && a in q.heap && !CancelWorks(q, a)
    ensures Leads(CancelInLoop(q, a), steps, t) && !SilentSince(q, t, q.heap[a].sequence)
  {
    ReachableInv(q);
    StepKeepsInv(q, CancelStep(a));
    IgnoredCancel(q, a);
    var c := CancelInLoop(q, a);
    OthersRun(c, a);
    steps, t :| Leads(c, steps, t) && !SilentSince(c, t, q.heap[a].sequence);
  }

  lemma IgnoredCancel(q: Queue, a: nat)
    requires a in q.heap && a !in q.active
    ensures var c := CancelInLoop(q, a);
            c == q.(cancelled := c.cancelled) && (CancelWorks(c, a) <==> CancelWorks(q, a))
  {}
}
