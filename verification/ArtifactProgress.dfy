/**
 Locks and reservations together never block, and their runs are bounded: in every reachable state in which some task is
 not over with its keys given back, a step that takes some task on is enabled, and every such step uses up something of
 what the tasks and their plans allow.
 */
module ArtifactProgress {
  import opened Prelude
  import opened PromiseQueues
  import opened ArtifactJournal
  import opened ArtifactMutation
  import L = ArtifactLocks
  import R = ArtifactReservations

  // ----- the two never block each other -----

  predicate Settled(s: State, i: nat)
    requires Placed(s, i)
  {
    s.res.tasks[i].phase == R.Over && LockTask(s, i).phase in {L.Idle, L.Finished}
  }

  /** The step takes a task on: with its keys, or from one await to the next. */
  predicate TaskStep(e: Step) { e.Lock? || e.HandOff? || (e.Book? && (R.Moves(e.e) || e.e.Persisted? || e.e.Finish?)) }

  /** The next step of the locks for a task, when nothing need fail. */
  ghost predicate Ready(s: State, i: nat, l: L.Step) {
    Placed(s, i) && l.t == s.place[i] && L.Enabled(s.locks, l) && !l.Submit? && !L.Fails(l)
  }

  lemma DeploymentCanStep(c: R.Config, reg: Registry, s: State, i: nat, l: L.Step) returns (e: Step)
    requires Ready(s, i, l) && s.res.tasks[i].kind == R.Deploy && Fits(s.res.tasks[i], LockTask(s, i))
    requires R.FrameFits(s.res.tasks[i]) && L.GoodTask(LockTask(s, i))
    ensures Enabled(c, reg, s, e) && TaskStep(e)
  {
    var k := LockTask(s, i);
    hide L.Line, L.Ordered;
    match s.res.tasks[i].phase
    case Checking => e := if k.phase == L.Waiting then Lock(i, l) else Book(R.GiveUp(i));
    case Persisting => e := Book(R.Persisted(i, false, false, []));
    case Leaving =>
      e := if k.phase == L.Working then Lock(i, L.Settle(l.t, true)) else if k.held == 1 then Book(R.Finish(i)) else Lock(i, l);
    case Over => e := Lock(i, l);
    case _ => e := Book(R.Settled(i, false));
  }

  lemma QueuedCanStep(c: R.Config, reg: Registry, s: State, i: nat, l: L.Step) returns (e: Step)
    requires Ready(s, i, l) && s.res.tasks[i].kind != R.Deploy && Fits(s.res.tasks[i], LockTask(s, i))
    requires R.FrameFits(s.res.tasks[i]) && L.GoodTask(LockTask(s, i))
    ensures Enabled(c, reg, s, e) && TaskStep(e)
  {
    var k := LockTask(s, i);
    hide L.Line, L.Ordered;
    match s.res.tasks[i].phase
    case Queued => e := if k.phase == L.Waiting then Lock(i, l) else Book(R.Begin(i));
    case Working => e := if k.held == 1 && (k.phase == L.Unwinding || l.Settle?) then Book(R.Settled(i, false))
        else Lock(i, l);
    case Leaving => e := Book(R.Finish(i));
    case Over => e := if k.phase == L.Working then Lock(i, L.Settle(l.t, true)) else Lock(i, l);
    case _ => e := Book(R.Settled(i, false));
  }

  /**
   What a task of the locks that can step lets its task do: that step, or the step of the reservations that is due.
   */
  lemma JobCanStep(c: R.Config, reg: Registry, s: State, i: nat, l: L.Step) returns (e: Step)
    requires Inv(c, reg, s) && Ready(s, i, l)
    ensures Enabled(c, reg, s, e) && TaskStep(e)
  {
    hide Jobs, R.Ledgers, R.Operations, R.Coordinator, L.Inv, Reserved, L.Plan, Fits, R.FrameFits, L.GoodTask, Enabled;
    OneTask(reg, s, i);
    OneKeyTask(s, i);
    if s.res.tasks[i].kind == R.Deploy { e := DeploymentCanStep(c, reg, s, i, l); }
    else { e := QueuedCanStep(c, reg, s, i, l); }
  }

  /** A task whose keys are not asked for yet, or all given back, can go on by itself. */
  lemma AloneCanStep(c: R.Config, reg: Registry, s: State, i: nat) returns (e: Step)
    requires Inv(c, reg, s) && Placed(s, i) && !Settled(s, i) && LockTask(s, i).phase in {L.Idle, L.Finished}
    ensures Enabled(c, reg, s, e) && TaskStep(e)
  {
    hide Jobs, R.Ledgers, R.Operations, R.Coordinator, L.Inv, Reserved, L.Plan;
    OneTask(reg, s, i);
    var phase := s.res.tasks[i].phase;
    e := if phase == R.Asking then Book(R.Check(i))
         else if phase == R.Persisting then Book(R.Persisted(i, false, false, []))
         else Book(R.Finish(i));
  }

  lemma PlaceOf(c: R.Config, reg: Registry, s: State, l: L.Step) returns (j: nat)
    requires Inv(c, reg, s) && L.Enabled(s.locks, l) && !l.Submit?
    ensures Placed(s, j) && s.place[j] == l.t
  {
    assert IdleUnlessPlaced(s, l.t);
    j :| 0 <= j < |s.place| && s.place[j] == l.t;
  }

  lemma SomeTaskCanStep(c: R.Config, reg: Registry, s: State, i: nat) returns (e: Step)
    requires Inv(c, reg, s) && Placed(s, i) && !Settled(s, i)
    ensures Enabled(c, reg, s, e) && TaskStep(e)
  {
    if LockTask(s, i).phase in {L.Idle, L.Finished} {
      e := AloneCanStep(c, reg, s, i);
    } else {
      var l := L.SomeoneAheadCanStep(s.locks, s.place[i]);
      var j := PlaceOf(c, reg, s, l);
      e := JobCanStep(c, reg, s, j, l);
    }
  }

  // ----- how many steps a run can have -----

  function TotalRank(tasks: seq<R.Task>): nat {
    if tasks == [] then 0 else TotalRank(tasks[..|tasks| - 1]) + R.Rank(tasks[|tasks| - 1].phase)
  }

  lemma {:induction false} RankUpdate(tasks: seq<R.Task>, i: nat, t: R.Task)
    requires i < |tasks|
    ensures TotalRank(tasks[i := t]) == TotalRank(tasks) - R.Rank(tasks[i].phase) + R.Rank(t.phase)
    decreases |tasks|
  {
    var n := |tasks| - 1;
    if i == n {
      assert tasks[i := t][..n] == tasks[..n];
    } else {
      assert tasks[i := t][..n] == tasks[..n][i := t];
      RankUpdate(tasks[..n], i, t);
    }
  }

  lemma RankAppend(tasks: seq<R.Task>, t: R.Task)
    ensures TotalRank(tasks + [t]) <= TotalRank(tasks) + 7
  {
    assert (tasks + [t])[..|tasks|] == tasks;
  }

  /** What the tasks and their plans still allow. */
  function Allowance(s: State): nat { L.TotalLeft(s.locks.tasks) + TotalRank(s.res.tasks) }

  lemma RankOfOne(s: R.State, s': R.State, i: nat)
    requires i < |s.tasks| == |s'.tasks| && forall j :: 0 <= j < |s.tasks| && j != i ==> s'.tasks[j] == s.tasks[j]
    ensures TotalRank(s'.tasks) == TotalRank(s.tasks) - R.Rank(s.tasks[i].phase) + R.Rank(s'.tasks[i].phase)
  {
    assert s'.tasks == s.tasks[i := s'.tasks[i]];
    RankUpdate(s.tasks, i, s'.tasks[i]);
  }

  lemma BookUsesUp(c: R.Config, reg: Registry, s: State, e: R.Step)
    requires Jobs(reg, s) && R.Ledgers(s.res) && TaskStep(Book(e)) && BookAllowed(s, e) && R.Enabled(c, s.res, e)
    ensures TotalRank(R.Next(c, s.res, e).tasks) < TotalRank(s.res.tasks)
  {
    var i: nat := e.i;
    hide Jobs, R.Ledgers;
    OneTask(reg, s, i);
    R.RankFalls(c, s.res, e, i);
    if R.Moves(e) { R.MovesOnly(c, s.res, e); }
    else if e.Persisted? { PersistedMoves(c, s.res, e, i); }
    else { FinallyMoves(s.res, i); }
    hide R.Next, R.Finally, R.LeaseOk, BookAllowed, R.Rank;
    RankOfOne(s.res, R.Next(c, s.res, e), i);
  }

  lemma HandOffUsesUp(c: R.Config, reg: Registry, s: State, i: nat)
    requires Inv(c, reg, s) && Enabled(c, reg, s, HandOff(i))
    ensures Allowance(Next(c, reg, s, HandOff(i))) < Allowance(s)
  {
    hide Jobs, R.Ledgers, R.Operations, R.Coordinator, L.Inv, L.Enabled;
    OneTask(reg, s, i);
    HandOffMoves(c, s.res, i, Reserved(reg, s.asks[i]));
    L.StepUsesUp(s.locks, L.Submit(s.place[i]));
    hide R.Next, L.Next, Reserved;
    RankOfOne(s.res, Next(c, reg, s, HandOff(i)).res, i);
  }

  /** Every step that takes a task on uses up some of the allowance. */
  lemma TaskStepUsesUp(c: R.Config, reg: Registry, s: State, e: Step)
    requires Inv(c, reg, s) && Enabled(c, reg, s, e) && TaskStep(e)
    ensures Allowance(Next(c, reg, s, e)) < Allowance(s)
  {
    hide Jobs, R.Ledgers, R.Operations, R.Coordinator, L.Inv, L.Enabled, R.Enabled, L.Next, R.Next, BookAllowed;
    match e
    case HandOff(i) => HandOffUsesUp(c, reg, s, i);
    case Book(b) => BookUsesUp(c, reg, s, b);
    case Lock(_, l) => L.StepUsesUp(s.locks, l);
  }

  /** A request brings at most seven steps of its own with it; other steps bring none. */
  lemma OtherStepBrings(c: R.Config, reg: Registry, s: State, e: Step)
    requires Inv(c, reg, s) && Enabled(c, reg, s, e) && !TaskStep(e)
    ensures Allowance(Next(c, reg, s, e)) <= Allowance(s) + 7 * (|Next(c, reg, s, e).place| - |s.place|)
  {
    hide Jobs, R.Operations, R.Coordinator, L.Inv, L.Enabled, L.Next;
    var s' := Next(c, reg, s, e);
    match e
    case Ask(q, t, id, now) =>
      CallMoves(c, s.res, R.Call(KindOf(q), id, now));
      hide R.Next, R.Ledgers;
      assert s'.res.tasks == s.res.tasks + [s'.res.tasks[|s.res.tasks|]];
      RankAppend(s.res.tasks, s'.res.tasks[|s.res.tasks|]);
    case AskDeploy(q, t) =>
      DeployMoves(c, s.res, Reserved(reg, q));
      L.StepUsesUp(s.locks, L.Submit(t));
      hide R.Next, R.Ledgers;
      assert s'.res.tasks == s.res.tasks + [s'.res.tasks[|s.res.tasks|]];
      RankAppend(s.res.tasks, s'.res.tasks[|s.res.tasks|]);
    case Book(b) =>
      if b.Return? {
        R.ReturnChanges(c, s.res, b.i);
        hide R.Next, R.Ledgers;
        RankOfOne(s.res, s'.res, b.i);
      }
  }

  function CountTaskSteps(steps: seq<Step>): nat {
    if steps == [] then 0 else CountTaskSteps(steps[..|steps| - 1]) + if TaskStep(steps[|steps| - 1]) then 1 else 0
  }

  lemma {:induction false} RunUsesUp(c: R.Config, reg: Registry, states: seq<State>, steps: seq<Step>, k: nat)
    requires Run(c, reg, states, steps) && k < |states|
    ensures CountTaskSteps(steps[..k]) + Allowance(states[k]) <= Allowance(states[0]) + 7 * |states[k].place|
    ensures |states[k].locks.tasks| == |states[0].locks.tasks|
  {
    if k > 0 {
      var n := k - 1;
      RunUsesUp(c, reg, states, steps, n);
      RunInv(c, reg, states, steps, n);
      var s, e := states[n], steps[n];
      assert steps[..k][..n] == steps[..n];
      hide Inv;
      assert Enabled(c, reg, s, e) && states[k] == Next(c, reg, s, e);
      if TaskStep(e) { TaskStepUsesUp(c, reg, s, e); } else { OtherStepBrings(c, reg, s, e); }
      PlacesStay(c, reg, s, e);
      hide Next, Enabled, Run, TaskStep, Allowance;
    }
  }

  lemma PlacesStay(c: R.Config, reg: Registry, s: State, e: Step)
    requires Enabled(c, reg, s, e)
    ensures |Next(c, reg, s, e).locks.tasks| == |s.locks.tasks|
    ensures TaskStep(e) ==> Next(c, reg, s, e).place == s.place
  {
    hide R.Enabled, R.Next, L.Next, BookAllowed, LockAllowed, Reserved;
    match e
    case AskDeploy(q, t) => LockMoves(s.locks, L.Submit(t));
    case HandOff(i) => LockMoves(s.locks, L.Submit(s.place[i]));
    case Lock(_, l) => LockMoves(s.locks, l);
    case _ =>
  }

  /** No more tasks have a place than there are places. */
  lemma PlacesWithin(reg: Registry, s: State)
    requires Jobs(reg, s)
    ensures |s.place| <= |s.locks.tasks|
  {
    var n := |s.locks.tasks|;
    var all := Below(n);
    var some := Among(s.place);
    forall i: nat, j: nat | i < j < |s.place| ensures s.place[i] != s.place[j] { assert OwnPlace(s, i, j); }
    AmongCount(s.place);
    forall t | t in some ensures t in all {
      var i: nat :| i < |s.place| && s.place[i] == t;
      assert JobOk(reg, s, i);
      BelowHas(n, t);
    }
    Fewer(some, all);
  }

  function Among(place: seq<nat>): set<nat> { set t | t in place }

  function Below(n: nat): (r: set<nat>)
    ensures |r| == n && forall t :: t in r ==> t < n
  {
    if n == 0 then {} else Below(n - 1) + {n - 1}
  }

  lemma {:induction false} BelowHas(n: nat, t: nat)
    requires t < n
    ensures t in Below(n)
  {
    if t < n - 1 { BelowHas(n - 1, t); }
  }

  lemma {:induction false} AmongCount(place: seq<nat>)
    requires forall i: nat, j: nat :: i < j < |place| ==> place[i] != place[j]
    ensures |Among(place)| == |place|
  {
    if place != [] {
      var n := |place| - 1;
      AmongCount(place[..n]);
      assert Among(place) == Among(place[..n]) + {place[n]};
    }
  }

  // ----- where a run ends -----

  /** With every task settled all keys and reservations are given back. */
  lemma AllSettled(c: R.Config, reg: Registry, s: State)
    requires Inv(c, reg, s) && forall i: nat :: Placed(s, i) ==> Settled(s, i)
    ensures forall k :: L.Line(s.locks, k) == []
    ensures s.res.counts == map[] && s.res.busy == None && !R.HasActiveOperations(s.res)
  {
    forall i: nat | i < |s.res.tasks| ensures s.res.tasks[i].phase == R.Over { assert JobOk(reg, s, i); }
    R.AllOver(c, s.res);
    forall t: nat | t < |s.locks.tasks| ensures s.locks.tasks[t].held == 0 && s.locks.tasks[t].phase != L.Waiting {
      assert IdleUnlessPlaced(s, t) && L.GoodTask(s.locks.tasks[t]);
      if t in s.place {
        var i: nat :| i < |s.place| && s.place[i] == t;
        assert JobOk(reg, s, i) && Settled(s, i);
      }
    }
    forall k ensures L.Line(s.locks, k) == [] {
      assert L.GoodLine(s.locks, k);
      assert L.Line(s.locks, k) == [] || L.Line(s.locks, k)[0] in L.Line(s.locks, k);
      assert forall t :: !L.Holds(s.locks, t, k) && !L.Waits(s.locks, t, k);
    }
  }
}
