/** Fairness: in every run in which a loop completes two turns, each functor that waited on it has run;
    so every closed connection is destroyed once the base loop and its own loop turn. */
module ReactorFairness {
  import opened PollerModel
  import opened ConnModel
  import opened Reactor
  import opened ReactorInv
  import opened ReactorSteps
  import opened ReactorTheorems
  import opened ReactorProgress

  /** How many turns of loop l a run completes. */
  function Turns(steps: seq<Step>, l: nat): nat {
    if steps == [] then 0 else (if steps[0] == EndBatch(l) then 1 else 0) + Turns(steps[1..], l)
  }

  /** How many ends of a turn it takes at most until a queued functor has run. */
  function Need(lp: Loop, f: Functor<Id>): nat {
    if f in lp.batch || !lp.phase.Running? then 1 else 2
  }

  /** What one step, of whatever loop or thread, does to loop l's queues. */
  ghost predicate Evolved(lp: Loop, lp': Loop, step: Step, l: nat) {
    match step
    case SwapPending(k) =>
      if k == l then lp.phase == Dispatching([]) && lp'.phase.Running? && lp'.batch == lp.pending && lp'.pending == []
      else lp' == lp
    case EndBatch(k) =>
      if k == l then
        && lp.phase.Running? && lp.batch == []
        && lp'.phase.Polling? && lp'.batch == [] && lp'.pending == lp.pending
      else lp' == lp
    case RunFunctor(k) =>
      && lp'.phase == lp.phase && lp.pending <= lp'.pending
      && (if k == l then lp.phase.Running? && lp.batch != [] && lp'.batch == lp.batch[1..] else lp'.batch == lp.batch)
    case _ => lp'.phase.Running? == lp.phase.Running? && lp'.batch == lp.batch && lp.pending <= lp'.pending
  }

  lemma StepEvolves(s: Sys, step: Step, l: nat)
    requires Enabled(s, step) && AssertsHold(s, step) && l < |s.loops|
    ensures |After(s, step).loops| == |s.loops| && Evolved(s.loops[l], After(s, step).loops[l], step, l)
  {
    match step
    case Act(k) =>
      var r := s.loops[k].phase.active[0];
      ActingKeepsQueues(ActPopped(s, k), r.id, r.todo[0], l);
    case RunFunctor(k) => PerformingKeepsQueues(Popped(s, k), s.loops[k].batch[0], l);
    case _ =>
  }

  /** A functor that does not run in this step stays queued, and the end of a turn brings it closer. */
  lemma StepNeed(lp: Loop, lp': Loop, step: Step, l: nat, f: Functor<Id>)
    requires Unloaded(lp) && Evolved(lp, lp', step, l) && (f in lp.batch || f in lp.pending)
    requires step == RunFunctor(l) && lp.batch != [] ==> lp.batch[0] != f
    ensures Unloaded(lp') && (f in lp'.batch || f in lp'.pending)
    ensures Need(lp', f) + (if step == EndBatch(l) then 1 else 0) <= Need(lp, f)
  {
    if lp.batch != [] { assert lp.batch == [lp.batch[0]] + lp.batch[1..]; }
    if f in lp.pending && lp.pending <= lp'.pending { assert f in lp'.pending; }
  }

  lemma Longer(steps: seq<Step>, rest: seq<Step>, step: Step, ys: seq<Step>)
    requires steps != [] && steps[1..] == rest + [step] + ys
    ensures steps == ([steps[0]] + rest) + [step] + ys
  {
    assert steps == [steps[0]] + steps[1..];
  }

  /** In every run that completes enough turns of loop l, a functor queued on l runs. */
  lemma {:induction false} RunsInTime(s: Sys, steps: seq<Step>, t: Sys, l: nat, f: Functor<Id>)
    returns (xs: seq<Step>, m: Sys, ys: seq<Step>)
    requires Leads(s, steps, t) && Queued(s, l, f) && Unloaded(s.loops[l]) && Turns(steps, l) >= Need(s.loops[l], f)
    ensures steps == xs + [RunFunctor(l)] + ys && Leads(s, xs, m) && AtHead(m, l, f)
    ensures AssertsHold(m, RunFunctor(l)) && Leads(After(m, RunFunctor(l)), ys, t)
    decreases |steps|
  {
    var step, n := steps[0], After(s, steps[0]);
    if step == RunFunctor(l) && s.loops[l].batch[0] == f {
      xs, m, ys := [], s, steps[1..];
    } else {
      StepEvolves(s, step, l);
      StepNeed(s.loops[l], n.loops[l], step, l, f);
      var rest;
      rest, m, ys := RunsInTime(n, steps[1..], t, l, f);
      xs := [step] + rest;
      LeadsCons(s, step, rest, m);
      Longer(steps, rest, RunFunctor(l), ys);
    }
  }

  // ---------------------------------------------------------------------------------------
  // Teardown
  // ---------------------------------------------------------------------------------------

  /** What lasts of a connection: its place, its history, and that it left the server map. */
  ghost predicate Lasting(s: Sys, t: Sys, c: Id) {
    c in s.conns ==>
      && c in t.conns && t.conns[c].loop == s.conns[c].loop && s.conns[c].hist <= t.conns[c].hist
      && (c in t.server ==> c in s.server)
  }

  lemma StepLasting(s: Sys, step: Step, c: Id)
    requires Enabled(s, step) && AssertsHold(s, step) && s.nextId !in s.conns
    ensures Lasting(s, After(s, step), c)
  {
    if c in s.conns {
      StepForward(s, step, c);
      match step
      case Act(k) =>
        var r := s.loops[k].phase.active[0];
        ActingHome(ActPopped(s, k), r.id, r.todo[0], c);
        ActingServer(ActPopped(s, k), r.id, r.todo[0]);
      case RunFunctor(k) =>
        PerformingHome(Popped(s, k), s.loops[k].batch[0], c);
        PerformingServer(Popped(s, k), s.loops[k].batch[0]);
      case _ =>
    }
  }

  lemma ActingServer(s: Sys, me: Id, a: Action)
    requires me in s.conns && s.conns[me].loop < |s.loops|
    ensures Acting(s, me, a).server <= s.server
  {}

  lemma PerformingServer(s: Sys, f: Functor<Id>)
    requires f.conn in s.conns && s.conns[f.conn].loop < |s.loops|
    ensures Performing(s, f).server <= s.server
  {}

  lemma {:induction false} RunLasting(s: Sys, steps: seq<Step>, t: Sys, c: Id)
    requires Inv(s) && Leads(s, steps, t)
    ensures Inv(t) && Lasting(s, t, c)
    decreases |steps|
  {
    if steps == [] {
    } else {
      FreshIdUnused(s);
      StepLasting(s, steps[0], c);
      ReactorSteps.StepKeepsInv(s, steps[0]);
      RunLasting(After(s, steps[0]), steps[1..], t, c);
    }
  }

  lemma Contains(h: seq<Event>, h': seq<Event>, e: Event)
    requires h <= h' && e in h
    ensures e in h'
  {
    var i :| 0 <= i < |h| && h[i] == e;
    assert h'[i] == e;
  }

  /** The base loop's turns take a closed connection out of the server map. */
  lemma LeavesInTime(s: Sys, steps: seq<Step>, t: Sys, c: Id)
    requires Inv(s) && Leads(s, steps, t) && c in s.conns && StageOf(s, c).Shut? && Turns(steps, 0) >= 2
    ensures c !in t.server
  {
    ShutQueued(s, c);
    InvSteady(s, 0);
    var xs, m, ys := RunsInTime(s, steps, t, 0, RemoveConn(c));
    LeadsKeepsInv(s, xs, m);
    RemovedStays(m, ys, t, c);
  }

  lemma RemovedStays(m: Sys, ys: seq<Step>, t: Sys, c: Id)
    requires Inv(m) && AtHead(m, 0, RemoveConn(c)) && AssertsHold(m, RunFunctor(0))
    requires Leads(After(m, RunFunctor(0)), ys, t)
    ensures c !in t.server
  {
    ReactorSteps.StepKeepsInv(m, RunFunctor(0));
    OutAfter(m, c);
    StaysOut(After(m, RunFunctor(0)), ys, t, c);
  }

  lemma OutAfter(m: Sys, c: Id)
    requires Inv(m) && AtHead(m, 0, RemoveConn(c)) && AssertsHold(m, RunFunctor(0))
    ensures c in After(m, RunFunctor(0)).conns && c !in After(m, RunFunctor(0)).server
  {
    RemoveConnRuns(m, c);
  }

  lemma StaysOut(s: Sys, steps: seq<Step>, t: Sys, c: Id)
    requires Inv(s) && Leads(s, steps, t) && c in s.conns && c !in s.server
    ensures c !in t.server
  {
    RunLasting(s, steps, t, c);
  }

  lemma ShutQueued(s: Sys, c: Id)
    requires Inv(s) && c in s.conns && StageOf(s, c).Shut?
    ensures Queued(s, 0, RemoveConn(c))
  {
    assert Local(s, c);
    LocalTells(s, c);
    ShutNotGone(s, c);
    NextFunctorQueued(s, c);
  }

  lemma ShutNotGone(s: Sys, c: Id)
    requires c in s.conns && Shape(s.conns[c].hist) && (StageOf(s, c).Shut? || StageOf(s, c).Removed?)
    ensures Down in s.conns[c].hist && Gone !in s.conns[c].hist
  {
    var h := s.conns[c].hist;
    assert h[|h|-1] in h;
  }

  /** The connection's own loop's turns destroy it. */
  lemma DestroyedInTime(s: Sys, steps: seq<Step>, t: Sys, c: Id)
    requires Inv(s) && Leads(s, steps, t) && c in s.conns && StageOf(s, c).Removed?
    requires Turns(steps, s.conns[c].loop) >= 2
    ensures c in t.conns && Gone in t.conns[c].hist
  {
    assert Local(s, c);
    ShutNotGone(s, c);
    NextFunctorQueued(s, c);
    var l := s.conns[c].loop;
    InvSteady(s, l);
    var xs, m, ys := RunsInTime(s, steps, t, l, Destroy(c));
    LeadsKeepsInv(s, xs, m);
    DestroyedStays(m, l, ys, t, c);
  }

  lemma DestroyedStays(m: Sys, l: nat, ys: seq<Step>, t: Sys, c: Id)
    requires Inv(m) && AtHead(m, l, Destroy(c)) && AssertsHold(m, RunFunctor(l))
    requires Leads(After(m, RunFunctor(l)), ys, t)
    ensures c in t.conns && Gone in t.conns[c].hist
  {
    var n := After(m, RunFunctor(l));
    ReactorSteps.StepKeepsInv(m, RunFunctor(l));
    DestroyRuns(m, l, c);
    RunLasting(n, ys, t, c);
    Contains(n.conns[c].hist, t.conns[c].hist, Gone);
  }

  /** Every teardown finishes, in every run: once the base loop has completed two turns and then the
      connection's own loop two more, a closed connection has been through connectDestroyed, whatever the
      other loops, the environment and user code did meanwhile. */
  lemma TeardownFinishes(ioLoops: nat, run: seq<Step>, s: Sys, c: Id,
                         first: seq<Step>, m: Sys, second: seq<Step>, t: Sys)
    requires Leads(Init(ioLoops), run, s) && c in s.conns && Down in s.conns[c].hist
    requires Leads(s, first, m) && Turns(first, 0) >= 2
    requires Leads(m, second, t) && Turns(second, s.conns[c].loop) >= 2
    ensures c in t.conns && Gone in t.conns[c].hist
  {
    ReachableInv(ioLoops, run, s);
    RunLasting(s, first, m, c);
    RunLasting(m, second, t, c);
    Contains(s.conns[c].hist, m.conns[c].hist, Down);
    if Gone in m.conns[c].hist {
      Contains(m.conns[c].hist, t.conns[c].hist, Gone);
    } else {
      OutOfServer(s, first, m, c);
      NextFunctorQueued(m, c);
      DestroyedInTime(m, second, t, c);
    }
  }

  lemma OutOfServer(s: Sys, steps: seq<Step>, t: Sys, c: Id)
    requires Inv(s) && Leads(s, steps, t) && c in s.conns && Down in s.conns[c].hist && Turns(steps, 0) >= 2
    requires Lasting(s, t, c)
    ensures c !in t.server
  {
    assert Local(s, c);
    if Gone in s.conns[c].hist {
      LocalTells(s, c);
      GoneFinished(s, c);
    } else {
      NextFunctorQueued(s, c);
      if StageOf(s, c).Shut? { LeavesInTime(s, steps, t, c); }
    }
  }

  lemma GoneFinished(s: Sys, c: Id)
    requires c in s.conns && Local(s, c) && Gone in s.conns[c].hist
    ensures c !in s.server
  {
    var h := s.conns[c].hist;
    assert h[|h|-1].Gone?;
  }
}
