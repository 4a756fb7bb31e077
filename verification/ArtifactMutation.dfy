/**
 The tasks of ArtifactReservations take the locks of ArtifactLocks. A state has both, and for each task its request and
 its place among the tasks of the lock protocol.

 A step is a step of one of the two, or of both where the code does both between two awaits; what the nesting of the
 code's callbacks rules out is not enabled. An activation or a rollback runs under its runtime's key, and takes artifact
 keys in its work; a deployment runs under all its keys, and its `finally` comes after the artifact keys are given back
 and before its runtime's key is.
 */
module ArtifactMutation {
  import opened Prelude
  import opened PromiseQueues
  import opened ArtifactJournal
  import L = ArtifactLocks
  import R = ArtifactReservations

  /** Which runtimes own an artifact, and which artifacts a runtime declares. */
  datatype Registry = Registry(owners: map<nat, seq<nat>>, declared: map<nat, seq<nat>>)

  function Get(m: map<nat, seq<nat>>, x: nat): seq<nat> { if x in m then m[x] else [] }

  function AllOwners(reg: Registry, ids: seq<nat>): seq<nat> {
    if ids == [] then [] else Get(reg.owners, ids[0]) + AllOwners(reg, ids[1..])
  }

  /** `affectedRuntimeIds` */
  function Affected(reg: Registry, ids: seq<nat>): seq<nat> { L.SortedIds(AllOwners(reg, ids)) }

  predicate Owns(reg: Registry, r: nat, ids: seq<nat>) {
    exists a :: a in ids && r in Get(reg.owners, a)
  }

  lemma {:induction false} AffectedAreOwners(reg: Registry, ids: seq<nat>, r: nat)
    ensures r in Affected(reg, ids) <==> Owns(reg, r, ids)
  {
    if ids != [] {
      AffectedAreOwners(reg, ids[1..], r);
      if Owns(reg, r, ids) {
        var a :| a in ids && r in Get(reg.owners, a);
        if a != ids[0] { assert a in ids[1..]; }
      }
      if Owns(reg, r, ids[1..]) {
        var a :| a in ids[1..] && r in Get(reg.owners, a);
        assert a in ids;
      }
    }
  }

  /** A deployment reserves for the artifacts its runtime declares, the others for those they were given. */
  function Reserved(reg: Registry, q: L.Request): seq<nat> {
    if q.EnsureRuntime? then Affected(reg, Get(reg.declared, q.runtime)) else Affected(reg, L.Listed(q))
  }

  function KindOf(q: L.Request): R.Kind {
    match q
    case Stage(_) => R.Stage
    case StageRelease(_, _) => R.Stage
    case Activate(_, _) => R.Activate
    case Rollback(_, _) => R.Rollback
    case EnsureRuntime(_, _) => R.Deploy
  }

  datatype State = State(locks: L.State, res: R.State, asks: seq<L.Request>, place: seq<nat>)

  datatype Step =
    | Ask(q: L.Request, t: nat, id: nat, now: int)
    | AskDeploy(q: L.Request, t: nat)
    | HandOff(i: nat)
    | Book(e: R.Step)
    | Lock(i: nat, l: L.Step)

  /** The lock task `t` will take the keys of the request, and no task is at its place. */
  predicate Vacant(s: State, q: L.Request, t: nat) {
    t < |s.locks.tasks| && s.locks.tasks[t].phase == L.Idle && s.locks.tasks[t].plan == L.Plan(q) && t !in s.place
  }

  predicate Placed(s: State, i: nat) {
    i < |s.res.tasks| == |s.asks| == |s.place| && s.place[i] < |s.locks.tasks|
  }

  function LockTask(s: State, i: nat): L.Task
    requires Placed(s, i)
  {
    s.locks.tasks[s.place[i]]
  }

  /** Which steps of the reservations the locks allow. */
  predicate BookAllowed(s: State, e: R.Step) {
    match e
    case Call(_, _, _) => false
    case CallDeploy(_) => false
    case Persisted(i, ok, valid, _) => Placed(s, i) && (!ok || !valid || s.res.tasks[i].kind == R.Deploy)
    case Begin(i) => Placed(s, i) && LockTask(s, i).phase == L.Working && LockTask(s, i).held == 1
    case Operate(i, _, _) => Placed(s, i) && L.Locked(s.locks, s.place[i])
    case GiveUp(i) => Placed(s, i) && LockTask(s, i).phase == L.Working
    case Settled(i, _) =>
      Placed(s, i) && (R.At(s.res, i, R.Working) && s.res.tasks[i].kind != R.Deploy ==>
        LockTask(s, i).held <= 1 && LockTask(s, i).phase != L.Waiting)
    case Finish(i) => Placed(s, i) && (s.res.tasks[i].kind == R.Deploy ==>
        LockTask(s, i).phase == L.Unwinding && LockTask(s, i).held == 1)
    case _ => true
  }

  /** Which steps of the locks the place of their task allows. */
  predicate LockAllowed(s: State, i: nat, e: L.Step) {
    Placed(s, i) && s.place[i] == e.t &&
    var held, phase := LockTask(s, i).held, s.res.tasks[i].phase;
    if s.res.tasks[i].kind == R.Deploy then
      match e
      case Submit(_) => false
      case Grant(_) => phase == R.Checking
      case Acquire(_) => phase == R.Checking
      case Settle(_, _) => phase == R.Leaving
      case Unlock(_) => phase == if held >= 2 then R.Leaving else R.Over
    else
      match e
      case Submit(_) => false
      case Grant(_) => phase == if held == 0 then R.Queued else R.Working
      case Acquire(_) => phase == R.Working
      case _ => phase == if held >= 2 then R.Working else R.Over
  }

  ghost predicate Enabled(c: R.Config, reg: Registry, s: State, e: Step) {
    match e
    case Ask(q, t, id, now) => Vacant(s, q, t) && R.Enabled(c, s.res, R.Call(KindOf(q), id, now))
    case AskDeploy(q, t) => q.EnsureRuntime? && Vacant(s, q, t) && R.Enabled(c, s.res, R.CallDeploy(Reserved(reg, q)))
    case HandOff(i) =>
      Placed(s, i) && s.res.tasks[i].kind != R.Deploy && R.At(s.res, i, R.Persisting) && L.Enabled(s.locks, L.Submit(s.place[i]))
    case Book(e) => BookAllowed(s, e) && R.Enabled(c, s.res, e)
    case Lock(i, l) => LockAllowed(s, i, l) && L.Enabled(s.locks, l)
  }

  ghost function Next(c: R.Config, reg: Registry, s: State, e: Step): State
    requires Enabled(c, reg, s, e)
  {
    match e
    case Ask(q, t, id, now) =>
      s.(res := R.Next(c, s.res, R.Call(KindOf(q), id, now)), asks := s.asks + [q], place := s.place + [t])
    case AskDeploy(q, t) =>
      State(L.Next(s.locks, L.Submit(t)), R.Next(c, s.res, R.CallDeploy(Reserved(reg, q))), s.asks + [q], s.place + [t])
    case HandOff(i) =>
      s.(locks := L.Next(s.locks, L.Submit(s.place[i])),
         res := R.Next(c, s.res, R.Persisted(i, true, true, Reserved(reg, s.asks[i]))))
    case Book(e) => s.(res := R.Next(c, s.res, e))
    case Lock(_, l) => s.(locks := L.Next(s.locks, l))
  }

  ghost predicate Run(c: R.Config, reg: Registry, states: seq<State>, steps: seq<Step>) {
    && c.maxPending >= 1 && |states| == |steps| + 1
    && L.Initial(states[0].locks) && R.Initial(states[0].res) && states[0].asks == [] && states[0].place == []
    && forall k :: 0 <= k < |steps| ==>
         Enabled(c, reg, states[k], steps[k]) && states[k + 1] == Next(c, reg, states[k], steps[k])
  }

  // ----- what every step keeps -----

  /** Where a task is tells how far it has got with its keys. */
  predicate Fits(t: R.Task, l: L.Task) {
    var one := l.held == 1 && l.phase in {L.Working, L.Unwinding};
    if t.kind == R.Deploy then
      match t.phase
      case Checking => l.phase in {L.Waiting, L.Working}
      case Leaving => l.phase in {L.Working, L.Unwinding}
      case Over => (l.phase == L.Unwinding && l.held == 1) || l.phase == L.Finished
      case _ => l.phase == L.Working && l.held == |l.plan|
    else if !t.handedOff then l.phase == L.Idle
    else
      match t.phase
      case Queued => (l.phase == L.Waiting && l.held == 0) || (l.phase == L.Working && l.held == 1)
      case Starting => l.phase == L.Working && l.held == 1
      case Working => l.phase in {L.Waiting, L.Working, L.Unwinding} && l.held >= 1
      case Over => one || l.phase == L.Finished
      case _ => one
  }

  predicate JobOk(reg: Registry, s: State, i: nat) {
    i < |s.res.tasks| ==>
      && Placed(s, i)
      && KindOf(s.asks[i]) == s.res.tasks[i].kind && LockTask(s, i).plan == L.Plan(s.asks[i])
      && Fits(s.res.tasks[i], LockTask(s, i))
      && (s.res.tasks[i].lease.Some? ==>
            s.res.tasks[i].lease.value < |s.res.leases|
              && s.res.leases[s.res.tasks[i].lease.value].runtimes == Reserved(reg, s.asks[i]))
  }

  predicate OwnPlace(s: State, i: nat, j: nat) { i < |s.place| && j < |s.place| && i != j ==> s.place[i] != s.place[j] }

  predicate IdleUnlessPlaced(s: State, t: nat) { t < |s.locks.tasks| && t !in s.place ==>
      s.locks.tasks[t].phase == L.Idle }

  ghost predicate Jobs(reg: Registry, s: State) {
    && |s.res.tasks| == |s.asks| == |s.place|
    && (forall i: nat :: JobOk(reg, s, i)) && (forall i: nat, j: nat :: OwnPlace(s, i, j))
      && (forall t: nat :: IdleUnlessPlaced(s, t))
  }

  ghost predicate Inv(c: R.Config, reg: Registry, s: State) {
    L.Inv(s.locks) && R.Ledgers(s.res) && R.Operations(c, s.res) && R.Coordinator(c, s.res) && Jobs(reg, s)
  }

  /** Reservations are only ever added, or marked as released. */
  predicate LeasesGrow(s: R.State, s': R.State) {
    |s.leases| <= |s'.leases| && forall h :: 0 <= h < |s.leases| ==> s'.leases[h].runtimes == s.leases[h].runtimes
  }

  /** One task of the reservations moves, or is new, and one of the locks. */
  predicate OneJob(s: State, s': State, i: nat) {
    && |s.res.tasks| <= |s'.res.tasks| <= |s.res.tasks| + 1 && i < |s'.res.tasks| == |s'.asks| == |s'.place|
    && (|s'.res.tasks| > |s.res.tasks| ==> i == |s.res.tasks|)
    && s.asks <= s'.asks && s.place <= s'.place && |s'.locks.tasks| == |s.locks.tasks| && s'.place[i] < |s.locks.tasks|
    && (forall j :: 0 <= j < |s.res.tasks| && j != i ==> s'.res.tasks[j] == s.res.tasks[j])
    && (forall t :: 0 <= t < |s.locks.tasks| && t != s'.place[i] ==> s'.locks.tasks[t] == s.locks.tasks[t])
    && LeasesGrow(s.res, s'.res)
  }

  lemma JobsKept(reg: Registry, s: State, s': State, i: nat)
    requires Jobs(reg, s) && OneJob(s, s', i) && JobOk(reg, s', i)
    requires i == |s.res.tasks| ==> s'.place[i] !in s.place
    ensures Jobs(reg, s')
  {
    hide Fits, Reserved, L.Plan;
    forall j: nat, k: nat ensures OwnPlace(s', j, k) { assert OwnPlace(s, j, k); }
    forall j: nat ensures JobOk(reg, s', j) {
      if j < |s.res.tasks| && j != i { assert JobOk(reg, s, j) && OwnPlace(s', i, j); }
    }
    forall t: nat ensures IdleUnlessPlaced(s', t) {
      assert IdleUnlessPlaced(s, t);
      if t in s.place { var j :| 0 <= j < |s.place| && s.place[j] == t; assert s'.place[j] == t; }
      assert s'.place[i] in s'.place;
    }
  }

  // ----- steps of the reservations alone -----

  /** One task moves on; its reservation, if any, is the one it had. */
  predicate TaskMoved(s: R.State, s': R.State, i: nat) {
    && i < |s.tasks| == |s'.tasks| && LeasesGrow(s, s')
    && (forall j :: 0 <= j < |s.tasks| && j != i ==> s'.tasks[j] == s.tasks[j])
    && s'.tasks[i].kind == s.tasks[i].kind && s'.tasks[i].lease == s.tasks[i].lease
  }

  lemma FinallyMoves(s: R.State, i: nat)
    requires R.LeaseOk(s, i) && R.At(s, i, R.Leaving) && |s.handles| == |s.leases|
    ensures TaskMoved(s, R.Finally(s, i), i)
    ensures R.Finally(s, i).tasks[i].phase == R.Over && R.Finally(s, i).tasks[i].handedOff == s.tasks[i].handedOff
  {
    R.FinallyDoes(s, i);
    hide R.Finally;
  }

  lemma PersistedMoves(c: R.Config, s: R.State, e: R.Step, i: nat)
    requires R.LeaseOk(s, i) && R.Enabled(c, s, e) && e.Persisted? && e.i == i
    requires !e.ok || !e.valid || s.tasks[i].kind == R.Deploy
    ensures TaskMoved(s, R.Next(c, s, e), i)
    ensures R.Next(c, s, e).tasks[i].handedOff == s.tasks[i].handedOff
    ensures R.Next(c, s, e).tasks[i].phase in {R.Leaving, R.Starting}
    ensures R.Next(c, s, e).tasks[i].phase == R.Starting ==> s.tasks[i].kind == R.Deploy
  {
    hide R.Mark;
  }

  lemma BookFits(c: R.Config, s: State, e: R.Step, i: nat)
    requires R.LeaseOk(s.res, i) && Placed(s, i) && Fits(s.res.tasks[i], LockTask(s, i))
    requires R.Moves(e) && R.StepOf(e, i) && BookAllowed(s, e) && R.Enabled(c, s.res, e)
    ensures Fits(R.Next(c, s.res, e).tasks[i], LockTask(s, i))
  {
    hide R.Next;
    R.MovesOnly(c, s.res, e);
    NextPhase(c, s.res, e, i);
  }

  /** Where the steps that move one task can take it. */
  predicate Leads(p: R.Phase, q: R.Phase, e: R.Step) {
    match p
    case Asking => q in {R.Leaving, R.Persisting}
    case Checking => q == R.Leaving || (q == R.Persisting && e.Operate?)
    case Queued => q == R.Starting
    case Starting => q in {R.Working, R.Leaving}
    case Working => q == R.Writing
    case _ => q == R.Leaving
  }

  lemma NextPhase(c: R.Config, s: R.State, e: R.Step, i: nat)
    requires R.LeaseOk(s, i) && R.Moves(e) && R.StepOf(e, i) && R.Enabled(c, s, e)
    ensures i < |R.Next(c, s, e).tasks| && Leads(s.tasks[i].phase, R.Next(c, s, e).tasks[i].phase, e)
  {
    hide Decided, Refuses, R.Fresh, Created, R.Mark;
    match e
    case Check(_) =>
    case Operate(_, _, _) =>
    case Settled(_, _) =>
    case _ =>
  }

  /** What is known of one task. */
  lemma OneTask(reg: Registry, s: State, i: nat)
    requires Jobs(reg, s) && R.Ledgers(s.res) && i < |s.res.tasks|
    ensures JobOk(reg, s, i) && R.LeaseOk(s.res, i) && |s.res.handles| == |s.res.leases|
  {
    hide Counts, JobOk, R.LeaseOk, R.HandleOk;
  }

  lemma OneKeyTask(s: State, i: nat)
    requires L.Inv(s.locks) && Placed(s, i)
    ensures L.GoodTask(LockTask(s, i))
  {
    hide L.GoodTask, L.GoodLine;
  }

  lemma TaskKeeps(reg: Registry, s: State, res: R.State, i: nat)
    requires Jobs(reg, s) && TaskMoved(s.res, res, i) && Placed(s, i) && Fits(res.tasks[i], LockTask(s, i))
    ensures Jobs(reg, s.(res := res))
  {
    assert JobOk(reg, s, i);
    hide Fits, Reserved, L.Plan, Jobs;
    JobsKept(reg, s, s.(res := res), i);
  }

  lemma BookMoved(c: R.Config, reg: Registry, s: State, e: R.Step, i: nat)
    requires Jobs(reg, s) && R.Ledgers(s.res) && R.Moves(e) && R.StepOf(e, i) && BookAllowed(s, e)
        && R.Enabled(c, s.res, e)
    ensures Jobs(reg, s.(res := R.Next(c, s.res, e)))
  {
    hide Jobs, R.Ledgers;
    OneTask(reg, s, i);
    R.MovesOnly(c, s.res, e);
    BookFits(c, s, e, i);
    hide R.Next, Fits, Reserved, L.Plan;
    TaskKeeps(reg, s, R.Next(c, s.res, e), i);
  }

  lemma BookPersisted(c: R.Config, reg: Registry, s: State, e: R.Step, i: nat)
    requires Jobs(reg, s) && R.Ledgers(s.res) && e.Persisted? && e.i == i && BookAllowed(s, e) && R.Enabled(c, s.res, e)
    ensures Jobs(reg, s.(res := R.Next(c, s.res, e)))
  {
    hide Jobs, R.Ledgers;
    OneTask(reg, s, i);
    PersistedMoves(c, s.res, e, i);
    hide R.Next, Reserved, L.Plan;
    TaskKeeps(reg, s, R.Next(c, s.res, e), i);
  }

  lemma ReturnMoves(s: R.State, i: nat)
    requires i < |s.tasks|
    ensures TaskMoved(s, R.Put(s, i, s.tasks[i].(caller := R.Returned)), i)
  {
  }

  /** The keys fit a task that ends, and one whose caller returns. */
  lemma EndFits(t: R.Task, t': R.Task, l: L.Task)
    requires Fits(t, l) && t'.kind == t.kind && t'.handedOff == t.handedOff
    requires t'.phase == t.phase || (t.phase == R.Leaving && t'.phase == R.Over
        && (t.kind == R.Deploy ==> l.phase == L.Unwinding && l.held == 1))
    ensures Fits(t', l)
  {
  }

  lemma BookFinished(c: R.Config, reg: Registry, s: State, i: nat)
    requires Jobs(reg, s) && R.Ledgers(s.res) && BookAllowed(s, R.Finish(i)) && R.At(s.res, i, R.Leaving)
    ensures Jobs(reg, s.(res := R.Finally(s.res, i)))
  {
    hide Jobs, R.Ledgers, R.Finally, R.LeaseFits, Reserved, L.Plan;
    OneTask(reg, s, i);
    FinallyMoves(s.res, i);
    EndFits(s.res.tasks[i], R.Finally(s.res, i).tasks[i], LockTask(s, i));
    hide Fits, TaskMoved;
    TaskKeeps(reg, s, R.Finally(s.res, i), i);
  }

  lemma BookReturned(reg: Registry, s: State, i: nat)
    requires Jobs(reg, s) && i < |s.res.tasks|
    ensures Jobs(reg, s.(res := R.Put(s.res, i, s.res.tasks[i].(caller := R.Returned))))
  {
    assert JobOk(reg, s, i);
    var res := R.Put(s.res, i, s.res.tasks[i].(caller := R.Returned));
    EndFits(s.res.tasks[i], res.tasks[i], LockTask(s, i));
    ReturnMoves(s.res, i);
    hide Jobs, Fits, Reserved, L.Plan, TaskMoved;
    TaskKeeps(reg, s, res, i);
  }

  /** The reservations' tasks and leases stay. */
  lemma JobsSame(reg: Registry, s: State, res: R.State)
    requires Jobs(reg, s) && res.tasks == s.res.tasks && res.leases == s.res.leases
    ensures Jobs(reg, s.(res := res))
  {
    var s' := s.(res := res);
    forall j: nat ensures JobOk(reg, s', j) { assert JobOk(reg, s, j); }
    forall j: nat, k: nat ensures OwnPlace(s', j, k) { assert OwnPlace(s, j, k); }
    forall t: nat ensures IdleUnlessPlaced(s', t) { assert IdleUnlessPlaced(s, t); }
  }

  lemma BookKeeps(c: R.Config, reg: Registry, s: State, e: R.Step)
    requires Jobs(reg, s) && R.Ledgers(s.res) && BookAllowed(s, e) && R.Enabled(c, s.res, e)
    ensures Jobs(reg, s.(res := R.Next(c, s.res, e)))
  {
    hide Jobs, R.Ledgers;
    if R.Moves(e) { BookMoved(c, reg, s, e, e.i); }
    else if e.Persisted? { BookPersisted(c, reg, s, e, e.i); }
    else if e.Finish? { BookFinished(c, reg, s, e.i); }
    else if e.Return? { R.ReturnChanges(c, s.res, e.i); BookReturned(reg, s, e.i); }
    else { JobsSame(reg, s, R.Next(c, s.res, e)); }
  }

  // ----- steps of the locks alone, and of both -----

  lemma LockFits(s: State, i: nat, l: L.Step)
    requires Placed(s, i) && Fits(s.res.tasks[i], LockTask(s, i)) && L.GoodTask(LockTask(s, i))
    requires LockAllowed(s, i, l) && L.Enabled(s.locks, l)
    ensures Fits(s.res.tasks[i], L.Next(s.locks, l).tasks[s.place[i]])
  {
    hide L.Join, L.Line;
  }

  /** A step of the locks moves one task and leaves its plan. */
  lemma LockMoves(s: L.State, l: L.Step)
    requires L.Enabled(s, l)
    ensures var s' := L.Next(s, l);
            |s'.tasks| == |s.tasks| && s'.tasks[l.t].plan == s.tasks[l.t].plan
            && forall t :: 0 <= t < |s.tasks| && t != l.t ==> s'.tasks[t] == s.tasks[t]
  {
    hide L.Join, L.Line;
  }

  lemma LockKeeps(reg: Registry, s: State, i: nat, l: L.Step)
    requires Jobs(reg, s) && L.Inv(s.locks) && LockAllowed(s, i, l) && L.Enabled(s.locks, l)
    ensures Jobs(reg, s.(locks := L.Next(s.locks, l)))
  {
    assert JobOk(reg, s, i);
    hide Jobs, L.Inv;
    OneKeyTask(s, i);
    LockFits(s, i, l);
    LockMoves(s.locks, l);
    hide Fits, Reserved, L.Plan, Jobs, L.Inv, L.GoodTask, L.Next, L.Enabled;
    JobsKept(reg, s, s.(locks := L.Next(s.locks, l)), i);
  }

  lemma CallMoves(c: R.Config, s: R.State, e: R.Step)
    requires R.Enabled(c, s, e) && e.Call?
    ensures var s' := R.Next(c, s, e); var n := |s.tasks|;
            && |s'.tasks| == n + 1 && s'.leases == s.leases && (forall j :: 0 <= j < n ==> s'.tasks[j] == s.tasks[j])
            && s'.tasks[n].kind == e.kind && s'.tasks[n].lease == None && !s'.tasks[n].handedOff
  {
    hide Created, Moved, R.Fresh;
  }

  lemma AskKeeps(c: R.Config, reg: Registry, s: State, q: L.Request, t: nat, id: nat, now: int)
    requires Inv(c, reg, s) && Enabled(c, reg, s, Ask(q, t, id, now))
    ensures Jobs(reg, Next(c, reg, s, Ask(q, t, id, now)))
  {
    CallMoves(c, s.res, R.Call(KindOf(q), id, now));
    hide R.Next, Reserved, L.Plan, Jobs;
    JobsKept(reg, s, Next(c, reg, s, Ask(q, t, id, now)), |s.res.tasks|);
  }

  lemma DeployMoves(c: R.Config, s: R.State, runtimes: seq<nat>)
    requires R.Enabled(c, s, R.CallDeploy(runtimes))
    ensures var s' := R.Next(c, s, R.CallDeploy(runtimes)); var n := |s.tasks|;
            && |s'.tasks| == n + 1 && s'.leases == s.leases + [Lease(runtimes, false)]
            && (forall j :: 0 <= j < n ==> s'.tasks[j] == s.tasks[j])
            && s'.tasks[n].kind == R.Deploy && s'.tasks[n].phase == R.Checking && s'.tasks[n].lease == Some(|s.leases|)
  {
  }

  lemma SubmitMoves(s: L.State, t: nat)
    requires L.Enabled(s, L.Submit(t))
    ensures L.Next(s, L.Submit(t)).tasks == s.tasks[t := s.tasks[t].(phase := L.Waiting)]
  {
  }

  lemma DeployKeeps(c: R.Config, reg: Registry, s: State, q: L.Request, t: nat)
    requires Inv(c, reg, s) && Enabled(c, reg, s, AskDeploy(q, t))
    ensures Jobs(reg, Next(c, reg, s, AskDeploy(q, t)))
  {
    DeployMoves(c, s.res, Reserved(reg, q));
    SubmitMoves(s.locks, t);
    hide R.Next, R.Enabled, Reserved, L.Plan, L.Next, L.Enabled, Jobs, Inv;
    JobsKept(reg, s, Next(c, reg, s, AskDeploy(q, t)), |s.res.tasks|);
  }

  lemma HandOffMoves(c: R.Config, s: R.State, i: nat, runtimes: seq<nat>)
    requires R.LeaseOk(s, i) && R.At(s, i, R.Persisting) && s.tasks[i].kind != R.Deploy
    ensures var s' := R.Next(c, s, R.Persisted(i, true, true, runtimes)); var t := s'.tasks[i];
            && |s'.tasks| == |s.tasks| && LeasesGrow(s, s')
              && (forall j :: 0 <= j < |s.tasks| && j != i ==> s'.tasks[j] == s.tasks[j])
            && t.kind == s.tasks[i].kind && t.phase == R.Queued && t.handedOff
            && (t.lease.Some? ==> t.lease.value < |s'.leases| && s'.leases[t.lease.value].runtimes == runtimes)
  {
    hide Added;
  }

  lemma HandOffKeeps(c: R.Config, reg: Registry, s: State, i: nat)
    requires Inv(c, reg, s) && Enabled(c, reg, s, HandOff(i))
    ensures Jobs(reg, Next(c, reg, s, HandOff(i)))
  {
    hide Jobs, R.Ledgers, R.Operations, R.Coordinator, L.Inv, L.Enabled;
    OneTask(reg, s, i);
    OneKeyTask(s, i);
    HandOffMoves(c, s.res, i, Reserved(reg, s.asks[i]));
    SubmitMoves(s.locks, s.place[i]);
    hide R.Next, Reserved, L.Plan, L.Next, Jobs, R.Ledgers, L.Inv;
    JobsKept(reg, s, Next(c, reg, s, HandOff(i)), i);
  }

  lemma StepJobs(c: R.Config, reg: Registry, s: State, e: Step)
    requires Inv(c, reg, s) && Enabled(c, reg, s, e)
    ensures Jobs(reg, Next(c, reg, s, e))
  {
    hide Jobs, L.Inv, R.Ledgers, R.Operations, R.Coordinator, BookAllowed, LockAllowed, R.Enabled, L.Enabled, R.Next,
        L.Next;
    match e
    case Ask(q, t, id, now) => AskKeeps(c, reg, s, q, t, id, now);
    case AskDeploy(q, t) => DeployKeeps(c, reg, s, q, t);
    case HandOff(i) => HandOffKeeps(c, reg, s, i);
    case Book(b) => BookKeeps(c, reg, s, b);
    case Lock(i, l) => LockKeeps(reg, s, i, l);
  }

  lemma StepLocks(c: R.Config, reg: Registry, s: State, e: Step)
    requires L.Inv(s.locks) && Enabled(c, reg, s, e)
    ensures L.Inv(Next(c, reg, s, e).locks)
  {
    match e
    case AskDeploy(q, t) => L.StepInv(s.locks, L.Submit(t));
    case HandOff(i) => L.StepInv(s.locks, L.Submit(s.place[i]));
    case Lock(_, l) => L.StepInv(s.locks, l);
    case _ =>
  }

  /** What a step does to the reservations, if anything. */
  function BookOf(reg: Registry, s: State, e: Step): Option<R.Step> {
    match e
    case Ask(q, _, id, now) => Some(R.Call(KindOf(q), id, now))
    case AskDeploy(q, _) => Some(R.CallDeploy(Reserved(reg, q)))
    case HandOff(i) => if i < |s.asks| then Some(R.Persisted(i, true, true, Reserved(reg, s.asks[i]))) else None
    case Book(b) => Some(b)
    case Lock(_, _) => None
  }

  lemma StepBook(c: R.Config, reg: Registry, s: State, e: Step)
    requires R.Ledgers(s.res) && R.Operations(c, s.res) && R.Coordinator(c, s.res) && Enabled(c, reg, s, e)
    ensures var r := Next(c, reg, s, e).res; R.Ledgers(r) && R.Operations(c, r) && R.Coordinator(c, r)
  {
    var b := BookOf(reg, s, e);
    hide R.Ledgers, R.Operations, R.Coordinator, R.Next;
    if b.Some? {
      R.StepLedgers(c, s.res, b.value);
      R.StepOperations(c, s.res, b.value);
      R.StepCoordinator(c, s.res, b.value);
    }
  }

  lemma {:induction false} RunInv(c: R.Config, reg: Registry, states: seq<State>, steps: seq<Step>, k: nat)
    requires Run(c, reg, states, steps) && k < |states|
    ensures Inv(c, reg, states[k])
  {
    if k == 0 {
      L.InitialInv(states[0].locks);
      forall t: nat ensures IdleUnlessPlaced(states[0], t) {
        if t < |states[0].locks.tasks| { assert L.NotSubmitted(states[0].locks.tasks[t]); }
      }
    } else {
      RunInv(c, reg, states, steps, k - 1);
      var s, e := states[k - 1], steps[k - 1];
      StepLocks(c, reg, s, e);
      StepBook(c, reg, s, e);
      StepJobs(c, reg, s, e);
    }
  }

  // ----- a runtime whose artifact may change counts as mutating -----

  /** Task `i` holds the lock of the artifact. */
  ghost predicate HoldsArtifact(s: State, i: nat, a: nat) {
    i < |s.place| && L.Holds(s.locks, s.place[i], Artifact(a))
  }

  lemma OnlyListedLocked(q: L.Request, k: nat, a: nat)
    requires k < |L.Plan(q)| && L.Plan(q)[k] == Artifact(a)
    ensures a in L.Listed(q) && (k == 0 ==> q.Stage?)
  {
    if !q.Stage? {
      var ids := L.LockedIds(L.Listed(q));
      assert L.Plan(q)[k] == L.ArtifactKeys(ids)[k - 1];
      assert ids[k - 1] in ids;
    }
  }

  /** How far a task that holds an artifact's lock has got. */
  lemma KeysHeld(reg: Registry, s: State, i: nat, a: nat)
    requires JobOk(reg, s, i) && i < |s.res.tasks| && HoldsArtifact(s, i, a)
    ensures a in L.Listed(s.asks[i]) && LockTask(s, i).held >= if s.asks[i].Stage? then 1 else 2
  {
    var l := LockTask(s, i);
    hide Reserved, Fits, L.Plan, L.Listed;
    var k :| 0 <= k < l.held && l.plan[k] == Artifact(a);
    OnlyListedLocked(s.asks[i], k, a);
  }

  /** A task that has taken a key, and not only its first, is not over and has its reservation. */
  lemma HolderReserves(t: R.Task, l: L.Task)
    requires R.LeaseFits(t) && Fits(t, l) && L.GoodTask(l) && t.kind != R.Stage && l.held >= 2
    ensures t.lease.Some? && t.phase != R.Over
  {
    hide L.Ordered;
  }

  /** A task that holds an artifact's lock, but for staging, is not over and has its reservation. */
  lemma LockedIsReserved(c: R.Config, reg: Registry, s: State, i: nat, a: nat, r: nat)
    requires Inv(c, reg, s) && i < |s.res.tasks| && HoldsArtifact(s, i, a) && s.res.tasks[i].kind != R.Stage
    ensures a in L.Listed(s.asks[i]) && (R.Reserves(s.res, i, r) <==> r in Reserved(reg, s.asks[i]))
  {
    hide Jobs, R.Ledgers, R.Operations, R.Coordinator, L.Inv;
    OneTask(reg, s, i);
    OneKeyTask(s, i);
    hide HoldsArtifact, Fits, R.LeaseFits, L.GoodTask, Reserved, L.Plan, L.Listed;
    KeysHeld(reg, s, i, a);
    HolderReserves(s.res.tasks[i], LockTask(s, i));
  }
}
