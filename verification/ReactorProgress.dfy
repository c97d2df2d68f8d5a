/** Progress: from every reachable state the loops can finish the teardown of every connection. */
module ReactorProgress {
  import opened PollerModel
  import opened ConnModel
  import opened Reactor
  import opened ReactorInv
  import opened ReactorSteps
  import opened ReactorTheorems

  /** What loop l does next if no new event or call comes in. */
  function Next(s: Sys, l: nat): Step
    requires l < |s.loops|
  {
    match s.loops[l].phase
    case Polling => PollReturn(l, [])
    case Dispatching(active) =>
      if active == [] then SwapPending(l)
      else if active[0].ConnReady? && active[0].todo != [] then Act(l)
      else Handled(l)
    case Running => if s.loops[l].batch == [] then EndBatch(l) else RunFunctor(l)
  }

  lemma NextEnabled(s: Sys, l: nat)
    requires l < |s.loops|
    ensures Enabled(s, Next(s, l))
  {}

  /** A loop's own step: no event is reported and nobody calls in. */
  predicate Own(step: Step) {
    match step
    case PollReturn(_, reports) => reports == []
    case Act(_) => true
    case Handled(_) => true
    case SwapPending(_) => true
    case RunFunctor(_) => true
    case EndBatch(_) => true
    case _ => false
  }

  predicate AllOwn(steps: seq<Step>) { forall step <- steps :: Own(step) }

  function Order(st: State): nat {
    match st case Connecting => 0 case Connected => 1 case Disconnecting => 2 case Disconnected => 3
  }

  /** A connection some steps later. */
  predicate Later(x: Conn, y: Conn) {
    && x.hist <= y.hist && Order(x.state) <= Order(y.state) && y.loop == x.loop
    && (y.state.Disconnected? && !x.state.Disconnected? ==> Down in y.hist[|x.hist|..])
  }

  /** Same connections, histories only extended. */
  ghost predicate Grown(s: Sys, t: Sys) {
    && |t.loops| == |s.loops| && t.conns.Keys == s.conns.Keys && t.nextId == s.nextId
    && forall c <- s.conns :: Later(s.conns[c], t.conns[c])
  }

  lemma NextGrows(s: Sys, l: nat)
    requires l < |s.loops| && AssertsHold(s, Next(s, l)) && s.nextId !in s.conns
    ensures Enabled(s, Next(s, l)) && Grown(s, After(s, Next(s, l)))
  {
    NextEnabled(s, l);
    var t := After(s, Next(s, l));
    OneStepLoopCount(s, Next(s, l));
    NextKeys(s, l);
    forall c | c in s.conns ensures Later(s.conns[c], t.conns[c]) {
      StepForward(s, Next(s, l), c);
      NextHome(s, l, c);
      ForwardIsLater(s.conns[c], t.conns[c]);
    }
  }

  lemma ForwardIsLater(x: Conn, y: Conn)
    requires Forward(x, y) && y.loop == x.loop
    ensures Later(x, y)
  {
    if y.state.Disconnected? && !x.state.Disconnected? { assert y.hist[|x.hist|] == Down; }
  }

  lemma NextKeys(s: Sys, l: nat)
    requires l < |s.loops| && Enabled(s, Next(s, l)) && AssertsHold(s, Next(s, l))
    ensures After(s, Next(s, l)).conns.Keys == s.conns.Keys && After(s, Next(s, l)).nextId == s.nextId
  {}

  /** What no own step changes about a connection: loop, life and descriptor. */
  predicate SameHome(x: Conn, y: Conn) { y.loop == x.loop && y.alive == x.alive && y.chan.fd == x.chan.fd }

  lemma NextHome(s: Sys, l: nat, c: Id)
    requires l < |s.loops| && Enabled(s, Next(s, l)) && AssertsHold(s, Next(s, l)) && c in s.conns
    ensures c in After(s, Next(s, l)).conns && SameHome(s.conns[c], After(s, Next(s, l)).conns[c])
  {
    match Next(s, l)
    case Act(_) =>
      var r := s.loops[l].phase.active[0];
      ActingHome(ActPopped(s, l), r.id, r.todo[0], c);
    case RunFunctor(_) => PerformingHome(Popped(s, l), s.loops[l].batch[0], c);
    case _ =>
  }

  lemma ActingHome(s: Sys, me: Id, a: Action, c: Id)
    requires me in s.conns && s.conns[me].loop < |s.loops| && c in s.conns
    ensures c in Acting(s, me, a).conns && SameHome(s.conns[c], Acting(s, me, a).conns[c])
  {}

  lemma PerformingHome(s: Sys, f: Functor<Id>, c: Id)
    requires f.conn in s.conns && s.conns[f.conn].loop < |s.loops| && c in s.conns
    ensures c in Performing(s, f).conns && SameHome(s.conns[c], Performing(s, f).conns[c])
  {}

  /** The work left in a dispatch list. */
  function Work(active: seq<Ready>): nat {
    if active == [] then 0 else 1 + (if active[0].ConnReady? then |active[0].todo| else 0) + Work(active[1..])
  }

  /** Only a loop that runs functors has a batch. */
  predicate Unloaded(lp: Loop) { lp.phase.Running? || lp.batch == [] }

  /** lp' is loop lp after one step of its own. */
  predicate Turned(lp: Loop, lp': Loop) {
    match lp.phase
    case Polling => lp'.phase == Dispatching([]) && lp'.batch == [] && lp'.pending == lp.pending
    case Dispatching(active) =>
      if active == [] then lp'.phase.Running? && lp'.batch == lp.pending && lp'.pending == []
      else lp'.phase.Dispatching? && Work(lp'.phase.active) < Work(active) && lp'.batch == []
           && lp.pending <= lp'.pending
    case Running =>
      if lp.batch == [] then lp'.phase.Polling? && lp'.batch == [] && lp'.pending == lp.pending
      else lp'.phase.Running? && lp'.batch == lp.batch[1..] && lp.pending <= lp'.pending
  }

  /** How the loop's own step changes its queues: callbacks and functors may append to the pending
      list, and nothing else touches it but the swap. */
  lemma NextQueues(s: Sys, l: nat)
    requires l < |s.loops| && Enabled(s, Next(s, l)) && AssertsHold(s, Next(s, l)) && Unloaded(s.loops[l])
    requires |After(s, Next(s, l)).loops| == |s.loops|
    ensures Turned(s.loops[l], After(s, Next(s, l)).loops[l])
  {
    match s.loops[l].phase
    case Polling =>
    case Dispatching(active) =>
      if active != [] && active[0].ConnReady? && active[0].todo != [] {
        ActQueues(s, l);
      }
    case Running =>
      if s.loops[l].batch != [] { RunQueues(s, l); }
  }

  lemma ActQueues(s: Sys, l: nat)
    requires Enabled(s, Act(l)) && AssertsHold(s, Act(l))
    ensures var lp, lp' := s.loops[l], After(s, Act(l)).loops[l];
            lp'.phase.Dispatching? && Work(lp'.phase.active) < Work(lp.phase.active) && lp'.batch == lp.batch
                  && lp.pending <= lp'.pending
  {
    var active := s.loops[l].phase.active;
    var rest := ConnReady(active[0].id, active[0].todo[1..]);
    assert ([rest] + active[1..])[1..] == active[1..];
    ActingKeepsQueues(ActPopped(s, l), active[0].id, active[0].todo[0], l);
  }

  lemma ActingKeepsQueues(s: Sys, c: Id, a: Action, l: nat)
    requires c in s.conns && s.conns[c].loop < |s.loops| && l < |s.loops|
    ensures var t := Acting(s, c, a);
            && |t.loops| == |s.loops| && t.loops[l].phase == s.loops[l].phase
            && t.loops[l].batch == s.loops[l].batch && s.loops[l].pending <= t.loops[l].pending
  {}

  lemma RunQueues(s: Sys, l: nat)
    requires Enabled(s, RunFunctor(l)) && AssertsHold(s, RunFunctor(l))
    ensures var lp, lp' := s.loops[l], After(s, RunFunctor(l)).loops[l];
            lp'.phase.Running? && lp'.batch == lp.batch[1..] && lp.pending <= lp'.pending
  {
    PerformingKeepsQueues(Popped(s, l), s.loops[l].batch[0], l);
  }

  lemma PerformingKeepsQueues(s: Sys, f: Functor<Id>, l: nat)
    requires f.conn in s.conns && s.conns[f.conn].loop < |s.loops| && l < |s.loops|
    ensures var t := Performing(s, f);
            && |t.loops| == |s.loops| && t.loops[l].phase == s.loops[l].phase
            && t.loops[l].batch == s.loops[l].batch && s.loops[l].pending <= t.loops[l].pending
  {}

  /** The functor waits on loop l. */
  predicate Queued(s: Sys, l: nat, f: Functor<Id>) {
    l < |s.loops| && (f in s.loops[l].batch || f in s.loops[l].pending)
  }

  predicate AtHead(s: Sys, l: nat, f: Functor<Id>) {
    l < |s.loops| && s.loops[l].phase.Running? && s.loops[l].batch != [] && s.loops[l].batch[0] == f
  }

  /** How far loop l is from running f: first the phases it has to pass, then the work in this one. */
  function Stages(lp: Loop, f: Functor<Id>): nat {
    if f in lp.batch then 0 else match lp.phase case Dispatching(_) => 1 case Polling => 2 case Running => 3
  }

  function Left(lp: Loop): nat {
    match lp.phase case Dispatching(active) => Work(active) case Polling => 0 case Running => |lp.batch|
  }

  lemma QueueCloser(lp: Loop, lp': Loop, f: Functor<Id>)
    requires Unloaded(lp) && Turned(lp, lp') && (f in lp.batch || f in lp.pending)
    requires !(lp.phase.Running? && lp.batch != [] && lp.batch[0] == f)
    ensures f in lp'.batch || f in lp'.pending
    ensures Stages(lp', f) < Stages(lp, f) || (Stages(lp', f) == Stages(lp, f) && Left(lp') < Left(lp))
  {
    if lp.phase.Running? && f in lp.batch { assert lp.batch == [lp.batch[0]] + lp.batch[1..]; }
    if f in lp.pending && lp.pending <= lp'.pending { assert f in lp'.pending; }
  }

  lemma LeadsCons(s: Sys, step: Step, steps: seq<Step>, t: Sys)
    requires Enabled(s, step) && AssertsHold(s, step) && Leads(After(s, step), steps, t)
    ensures Leads(s, [step] + steps, t)
  {
    assert ([step] + steps)[1..] == steps;
  }

  lemma {:induction false} LeadsAppend(s: Sys, xs: seq<Step>, m: Sys, ys: seq<Step>, t: Sys)
    requires Leads(s, xs, m) && Leads(m, ys, t)
    ensures Leads(s, xs + ys, t)
    decreases |xs|
  {
    if xs == [] {
      assert xs + ys == ys;
    } else {
      LeadsAppend(After(s, xs[0]), xs[1..], m, ys, t);
      assert (xs + ys)[1..] == xs[1..] + ys;
    }
  }

  lemma LaterTrans(x: Conn, y: Conn, z: Conn)
    requires Later(x, y) && Later(y, z)
    ensures Later(x, z)
  {
    assert z.hist[|x.hist|..] == z.hist[|x.hist|..|y.hist|] + z.hist[|y.hist|..];
    assert z.hist[|x.hist|..|y.hist|] == y.hist[|x.hist|..];
  }

  lemma GrownTrans(s: Sys, m: Sys, t: Sys)
    requires Grown(s, m) && Grown(m, t)
    ensures Grown(s, t)
  {
    forall c | c in s.conns ensures Later(s.conns[c], t.conns[c]) {
      LaterTrans(s.conns[c], m.conns[c], t.conns[c]);
    }
  }

  lemma GrownSelf(s: Sys)
    ensures Grown(s, s)
  {}

  /** All that is needed to let loop l go on by itself, with or without the protocol's invariant. */
  predicate Steady(s: Sys, l: nat) { l < |s.loops| && Unloaded(s.loops[l]) && s.nextId !in s.conns }

  lemma NextSteady(s: Sys, l: nat)
    requires Steady(s, l) && AssertsHold(s, Next(s, l))
    ensures Enabled(s, Next(s, l))
    ensures var t := After(s, Next(s, l)); Steady(t, l) && Grown(s, t) && Turned(s.loops[l], t.loops[l])
  {
    NextEnabled(s, l);
    NextGrows(s, l);
    NextQueues(s, l);
  }

  /** The next own step of loop l fails an assert. */
  ghost predicate Stuck(s: Sys, l: nat) { l < |s.loops| && Enabled(s, Next(s, l)) && !AssertsHold(s, Next(s, l)) }

  /** A queued functor gets its turn, whatever the other functors and callbacks of its loop do, unless an
      assert fails before. */
  lemma {:induction false} Driven(s: Sys, l: nat, f: Functor<Id>) returns (steps: seq<Step>, t: Sys)
    requires Steady(s, l) && Queued(s, l, f)
    ensures Leads(s, steps, t) && AllOwn(steps) && Steady(t, l) && Grown(s, t) && (Stuck(t, l) || AtHead(t, l, f))
    decreases Stages(s.loops[l], f), Left(s.loops[l])
  {
    if AtHead(s, l, f) || !AssertsHold(s, Next(s, l)) {
      NextEnabled(s, l);
      GrownSelf(s);
      steps, t := [], s;
    } else {
      NextSteady(s, l);
      QueueCloser(s.loops[l], After(s, Next(s, l)).loops[l], f);
      var more;
      more, t := Driven(After(s, Next(s, l)), l, f);
      steps := OwnCons(s, l, more, t);
    }
  }

  lemma OwnCons(s: Sys, l: nat, more: seq<Step>, t: Sys) returns (steps: seq<Step>)
    requires l < |s.loops| && Enabled(s, Next(s, l)) && AssertsHold(s, Next(s, l)) && Grown(s, After(s, Next(s, l)))
    requires Leads(After(s, Next(s, l)), more, t) && AllOwn(more) && Grown(After(s, Next(s, l)), t)
    ensures Leads(s, steps, t) && AllOwn(steps) && Grown(s, t)
  {
    steps := [Next(s, l)] + more;
    LeadsCons(s, Next(s, l), more, t);
    GrownTrans(s, After(s, Next(s, l)), t);
  }

  lemma InvSteady(s: Sys, l: nat)
    requires Inv(s) && l < |s.loops|
    ensures Steady(s, l) && !Stuck(s, l)
  {
    assert LoopShape(s.loops[l]);
    FreshIdUnused(s);
    NextEnabled(s, l);
    ReactorSteps.StepKeepsInv(s, Next(s, l));
  }

  /** A queued functor gets its turn, whatever the other functors and callbacks of its loop do. */
  lemma TurnComes(s: Sys, l: nat, f: Functor<Id>) returns (steps: seq<Step>, t: Sys)
    requires Inv(s) && Queued(s, l, f)
    ensures Leads(s, steps, t) && AllOwn(steps) && Inv(t) && Grown(s, t) && AtHead(t, l, f)
  {
    InvSteady(s, l);
    steps, t := Driven(s, l, f);
    LeadsKeepsInv(s, steps, t);
    InvSteady(t, l);
  }

  lemma RunHead(s: Sys, l: nat, f: Functor<Id>)
    requires Inv(s) && AtHead(s, l, f)
    ensures AssertsHold(s, RunFunctor(l))
    ensures var t := After(s, RunFunctor(l)); Inv(t) && Grown(s, t) && Leads(s, [RunFunctor(l)], t)
  {
    ReactorSteps.StepKeepsInv(s, RunFunctor(l));
    FreshIdUnused(s);
    NextGrows(s, l);
    var t := After(s, RunFunctor(l));
    assert Leads(t, [], t);
    LeadsCons(s, RunFunctor(l), [], t);
    assert [RunFunctor(l)] + [] == [RunFunctor(l)];
  }

  /** A connection that is disconnected and not destroyed has its next functor queued. */
  lemma NextFunctorQueued(s: Sys, c: Id)
    requires Inv(s) && c in s.conns && Down in s.conns[c].hist && Gone !in s.conns[c].hist
    ensures StageOf(s, c).Shut? || StageOf(s, c).Removed?
    ensures StageOf(s, c).Shut? ==> Queued(s, 0, RemoveConn(c))
    ensures StageOf(s, c).Removed? ==> Queued(s, s.conns[c].loop, Destroy(c))
  {
    assert Local(s, c) && Counts(s, c, StageOf(s, c));
    var h := s.conns[c].hist;
    assert h[|h|-1] in h;
    assert CountsOn(s.loops[0], 0, c, s.conns[c].loop, StageOf(s, c));
    assert CountsOn(s.loops[s.conns[c].loop], s.conns[c].loop, c, s.conns[c].loop, StageOf(s, c));
    assert StageOf(s, c).Shut? ==> Count(s.loops[0], RemoveConn(c)) == 1;
    assert StageOf(s, c).Removed? ==> Count(s.loops[s.conns[c].loop], Destroy(c)) == 1;
  }

  lemma RemoveConnRuns(s: Sys, c: Id)
    requires Inv(s) && AtHead(s, 0, RemoveConn(c)) && AssertsHold(s, RunFunctor(0))
    ensures c in After(s, RunFunctor(0)).conns && StageOf(After(s, RunFunctor(0)), c).Removed?
  {
    HeadTells(s, 0);
    IdsInRange(s, c);
    EraseFindsEntryIff(c);
  }

  lemma IdsInRange(s: Sys, c: Id)
    requires Ids(s) && c in s.conns
    ensures 1 <= c < 0x8000_0000
  {}

  lemma DestroyRuns(s: Sys, l: nat, c: Id)
    requires AtHead(s, l, Destroy(c)) && AssertsHold(s, RunFunctor(l))
    ensures c in After(s, RunFunctor(l)).conns && Gone in After(s, RunFunctor(l)).conns[c].hist
  {
    var h := After(s, RunFunctor(l)).conns[c].hist;
    assert h[|h|-1] == Gone;
  }

  /** The functor gets its turn and runs; m is the state just before. */
  lemma FunctorRuns(s: Sys, l: nat, f: Functor<Id>) returns (steps: seq<Step>, m: Sys)
    requires Inv(s) && Queued(s, l, f)
    ensures Inv(m) && AtHead(m, l, f) && AssertsHold(m, RunFunctor(l))
    ensures var t := After(m, RunFunctor(l)); Leads(s, steps, t) && AllOwn(steps) && Inv(t) && Grown(s, t)
  {
    var first;
    first, m := TurnComes(s, l, f);
    RunHead(m, l, f);
    GrownTrans(s, m, After(m, RunFunctor(l)));
    LeadsAppend(s, first, m, [RunFunctor(l)], After(m, RunFunctor(l)));
    steps := first + [RunFunctor(l)];
  }

  /** The hop to the base loop happens: the connection leaves the server map. */
  lemma LeavesServer(s: Sys, c: Id) returns (steps: seq<Step>, t: Sys)
    requires Inv(s) && c in s.conns && Queued(s, 0, RemoveConn(c))
    ensures Leads(s, steps, t) && AllOwn(steps) && Inv(t) && Grown(s, t) && StageOf(t, c).Removed?
  {
    var m;
    steps, m := FunctorRuns(s, 0, RemoveConn(c));
    RemoveConnRuns(m, c);
    t := After(m, RunFunctor(0));
  }

  /** connectDestroyed happens on the connection's own loop. */
  lemma GetsDestroyed(s: Sys, c: Id) returns (steps: seq<Step>, t: Sys)
    requires Inv(s) && c in s.conns && Queued(s, s.conns[c].loop, Destroy(c))
    ensures Leads(s, steps, t) && AllOwn(steps) && Inv(t) && Grown(s, t) && Gone in t.conns[c].hist
  {
    var m;
    steps, m := FunctorRuns(s, s.conns[c].loop, Destroy(c));
    DestroyRuns(m, s.conns[c].loop, c);
    t := After(m, RunFunctor(s.conns[c].loop));
  }

  lemma TornDown(s: Sys, c: Id) returns (steps: seq<Step>, t: Sys)
    requires Inv(s) && c in s.conns && Down in s.conns[c].hist && Gone !in s.conns[c].hist
    ensures Leads(s, steps, t) && AllOwn(steps) && Inv(t) && Grown(s, t) && Gone in t.conns[c].hist
  {
    NextFunctorQueued(s, c);
    if StageOf(s, c).Removed? {
      steps, t := GetsDestroyed(s, c);
    } else {
      var first, m := LeavesServer(s, c);
      var h, h' := s.conns[c].hist, m.conns[c].hist;
      assert Down in h' by { var i :| 0 <= i < |h| && h[i] == Down; assert h'[i] == Down; }
      StageTells(m, c);
      NextFunctorQueued(m, c);
      var last;
      last, t := GetsDestroyed(m, c);
      GrownTrans(s, m, t);
      LeadsAppend(s, first, m, last, t);
      steps := first + last;
    }
  }

  lemma StageTells(s: Sys, c: Id)
    requires Inv(s) && c in s.conns && StageOf(s, c).Removed?
    ensures Gone !in s.conns[c].hist
  {
    assert Local(s, c);
  }

  ghost function NotGone(s: Sys): set<Id> { set c | c in s.conns && Gone !in s.conns[c].hist }

  lemma NotGoneShrinks(s: Sys, t: Sys, c: Id)
    requires Grown(s, t) && c in NotGone(s) && Gone in t.conns[c].hist
    ensures NotGone(t) < NotGone(s)
  {
    forall d | d in NotGone(t) ensures d in NotGone(s) {
      assert Later(s.conns[d], t.conns[d]);
    }
    assert c !in NotGone(t);
  }

  ghost predicate AllTornDown(s: Sys) {
    forall c <- s.conns | Down in s.conns[c].hist :: Gone in s.conns[c].hist
  }

  lemma {:induction false} TearDownAll(s: Sys) returns (steps: seq<Step>, t: Sys)
    requires Inv(s)
    ensures Leads(s, steps, t) && AllOwn(steps) && Grown(s, t) && AllTornDown(t)
    decreases NotGone(s)
  {
    if AllTornDown(s) {
      GrownSelf(s);
      steps, t := [], s;
    } else {
      var c :| c in s.conns && Down in s.conns[c].hist && Gone !in s.conns[c].hist;
      var first, m := TornDown(s, c);
      NotGoneShrinks(s, m, c);
      var rest;
      rest, t := TearDownAll(m);
      GrownTrans(s, m, t);
      LeadsAppend(s, first, m, rest, t);
      steps := first + rest;
    }
  }

  /** No teardown gets stuck: from every reachable state, without any further event or call, the loops
      can go on until every connection that was ever closed is destroyed, those included that their
      callbacks close on the way; connections and histories are only extended. */
  lemma TeardownCanFinish(ioLoops: nat, run: seq<Step>, s: Sys)
    requires Leads(Init(ioLoops), run, s)
    ensures exists steps, t :: Leads(s, steps, t) && AllOwn(steps) && Grown(s, t) && AllTornDown(t)
  {
    ReachableInv(ioLoops, run, s);
    var steps, t := TearDownAll(s);
  }
}
