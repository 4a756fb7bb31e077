/**
 The tasks of the artifact manager: staging, activation, rollback and the deployment of an allocation.

 A task is at the await where its coroutine is suspended; one step runs it to the next one. What the model cannot see
 (whether a write or the work succeeds, what validation says, which runtimes an artifact belongs to) is an input of the
 step. A queued task may start at any time; ArtifactMutation has the queues and locks that say when.
 */
module ArtifactReservations {
  import opened Prelude
  import opened ArtifactJournal

  datatype Kind = Stage | Activate | Rollback | Deploy

  datatype Phase =
    | Asking       // in `acquireMutation`, before the capacity check
    | Persisting   // the pending operation is being written
    | Queued       // handed off to its promise queue
    | Checking     // a deployment in its queue or its locks, without an operation so far
    | Starting     // `run` writes that it runs
    | Working
    | Writing      // `run` writes how it ended; the operation is closed already
    | Leaving      // in `fail` or `pruneHistory`, or a throw on its way to `finally`
    | Over

  /** The frame of the caller, whose own `finally` runs when it returns; `Returning` is after the hand-off. */
  datatype Caller = Inside | Returning | Returned

  datatype Task = Task(kind: Kind, op: Option<nat>, lease: Option<nat>, granted: bool, phase: Phase,
                       caller: Caller, handedOff: bool)

  /** History: the task that reserved, and how often its caller's frame and its queued frame have called the closure. */
  datatype Handle = Handle(owner: nat, byCaller: nat, byTask: nat)

  datatype State = State(ops: map<nat, Operation>, counts: map<nat, nat>, leases: seq<Lease>, handles: seq<Handle>,
                         tasks: seq<Task>, busy: Option<Kind>, draining: bool)

  /** `coordinated`: there is a mutation coordinator. */
  datatype Config = Config(maxPending: nat, historyLimit: nat, coordinated: bool)

  /** After a restart every operation that was loaded is closed. */
  predicate Initial(s: State) {
    s == State(s.ops, map[], [], [], [], None, false) && AdmittedOpen(s.ops) == {}
    && forall id :: id in s.ops ==> !Open(s.ops[id].status)
  }

  // ----- steps -----

  datatype Step =
    | Call(kind: Kind, id: nat, now: int)
    | CallDeploy(runtimes: seq<nat>)
    | Check(i: nat)
    | Persisted(i: nat, ok: bool, valid: bool, runtimes: seq<nat>)
    | Begin(i: nat)
    | Operate(i: nat, id: nat, now: int)
    | GiveUp(i: nat)
    | Settled(i: nat, ok: bool)
    | Forget(i: nat, id: nat)
    | Finish(i: nat)
    | Return(i: nat)
    | BeginDrain

  /** The coordinator throws. */
  predicate Refused(c: Config, s: State) { c.coordinated && (s.draining || s.busy.Some?) }

  predicate At(s: State, i: nat, phase: Phase) { i < |s.tasks| && s.tasks[i].phase == phase }

  /** Ids of operations are random: none is used twice. */
  predicate Fresh(s: State, id: nat) {
    id !in s.ops && forall i :: 0 <= i < |s.tasks| ==> s.tasks[i].op != Some(id)
  }

  function Put(s: State, i: nat, t: Task): State
    requires i < |s.tasks|
  {
    s.(tasks := s.tasks[i := t])
  }

  function Go(s: State, i: nat, phase: Phase): State
    requires i < |s.tasks|
  {
    Put(s, i, s.tasks[i].(phase := phase))
  }

  /** The task's operation gets a status. */
  function Mark(s: State, i: nat, status: Status): (r: State)
    requires i < |s.tasks|
    ensures r == s.(ops := r.ops)
  {
    if s.tasks[i].op.Some? then s.(ops := Moved(s.ops, s.tasks[i].op.value, status)) else s
  }

  /** A new task. */
  function Enter(c: Config, s: State, t: Task): State {
    s.(tasks := s.tasks + [t], busy := if c.coordinated then Some(t.kind) else s.busy)
  }

  /** `reserveRuntimeMutation` for a task. */
  function Reserve(s: State, i: nat, runtimes: seq<nat>): State {
    s.(counts := Added(s.counts, runtimes), leases := s.leases + [Lease(runtimes, false)],
      handles := s.handles + [Handle(i, 0, 0)])
  }

  /** A call of the closure, from the caller's frame or from the queued one. */
  function CallClosure(s: State, h: nat, fromCaller: bool): State
    requires h < |s.leases| == |s.handles|
  {
    var x := s.handles[h];
    var s1 := s.(handles := s.handles[h := if fromCaller then x.(byCaller := x.byCaller + 1)
      else x.(byTask := x.byTask + 1)]);
    if s.leases[h].released then s1
    else s1.(counts := Removed(s.counts, s.leases[h].runtimes), leases := s.leases[h := s.leases[h].(released := true)])
  }

  /** What both `finally` blocks do: release the reservation and the coordinator. */
  function Release(s: State, i: nat, fromCaller: bool): (r: State)
    requires i < |s.tasks|
    ensures r == s.(counts := r.counts, leases := r.leases, handles := r.handles, busy := r.busy)
    ensures r.busy == if s.tasks[i].granted && s.busy == Some(s.tasks[i].kind) then None else s.busy
  {
    var t := s.tasks[i];
    var s1 := if t.lease.Some? && t.lease.value < |s.leases| == |s.handles|
      then CallClosure(s, t.lease.value, fromCaller) else s;
    s1.(busy := if t.granted && s.busy == Some(t.kind) then None else s.busy)
  }

  /** The caller's `finally`. */
  function CallerFinally(s: State, i: nat): State
    requires i < |s.tasks|
  {
    if s.tasks[i].handedOff then s else Release(s, i, true)
  }

  /** The frame that has the task leaves it: the caller's, which returns with that, or the queued one. */
  function Finally(s: State, i: nat): State
    requires i < |s.tasks|
  {
    var t := s.tasks[i];
    if t.caller == Inside then Put(CallerFinally(s, i), i, t.(phase := Over, caller := Returned))
    else Put(Release(s, i, false), i, t.(phase := Over))
  }

  predicate Enabled(c: Config, s: State, e: Step) {
    match e
    case Call(kind, id, _) => kind != Deploy && Fresh(s, id)
    case CallDeploy(_) => !Refused(c, s)
    case Check(i) => At(s, i, Asking)
    case Persisted(i, _, _, _) => At(s, i, Persisting)
    case Begin(i) => At(s, i, Queued)
    case Operate(i, id, _) => At(s, i, Checking) && Fresh(s, id)
    case GiveUp(i) => At(s, i, Checking)
    case Settled(i, _) => At(s, i, Starting) || At(s, i, Working) || At(s, i, Writing)
    case Forget(i, id) => At(s, i, Leaving) && id in s.ops && !Open(s.ops[id].status) && |s.ops| > c.historyLimit
    case Finish(i) => At(s, i, Leaving)
    case Return(i) => i < |s.tasks| && s.tasks[i].caller == Returning
    case BeginDrain => true
  }

  /** The capacity check of a task with an operation. */
  function Checked(c: Config, s: State, i: nat, id: nat): State
    requires i < |s.tasks|
  {
    Go(s.(ops := Decided(s.ops, id, c.maxPending)), i, if Refuses(s.ops, id, c.maxPending) then Leaving else Persisting)
  }

  /** `enqueue` and `handedOff = true` */
  function HandOff(t: Task): Task { t.(phase := Queued, caller := Returning, handedOff := true) }

  /** The rest of `persistPending`, validation, and the reservation and hand-off. */
  function AfterPersist(s: State, i: nat, ok: bool, valid: bool, runtimes: seq<nat>): State
    requires i < |s.tasks| && s.tasks[i].op.Some?
  {
    var t := s.tasks[i];
    if !ok then Go(s.(ops := s.ops - {t.op.value}), i, Leaving)
    else if t.kind == Deploy then Go(Mark(s, i, Running), i, Starting)
    else if !valid then Go(Mark(s, i, Failed), i, Leaving)
    else if t.kind == Stage then Put(s, i, HandOff(t))
    else Put(Reserve(s, i, runtimes), i, HandOff(t.(lease := Some(|s.leases|))))
  }

  /** The awaits of `run`. */
  function AfterSettled(s: State, i: nat, ok: bool): State
    requires i < |s.tasks|
  {
    match s.tasks[i].phase
    case Starting => if ok then Go(s, i, Working) else Go(Mark(s, i, Failed), i, Leaving)
    case Working => Go(Mark(s, i, if ok then Succeeded else Failed), i, Writing)
    case _ => Go(if ok then s else Mark(s, i, Failed), i, Leaving)
  }

  function Next(c: Config, s: State, e: Step): State
    requires Enabled(c, s, e)
  {
    match e
    case Call(kind, id, now) =>
      var s1 := s.(ops := Created(s.ops, id, now));
      if Refused(c, s) then s1.(ops := Moved(s1.ops, id, Failed),
        tasks := s.tasks + [Task(kind, Some(id), None, false, Leaving, Inside, false)])
      else Enter(c, s1, Task(kind, Some(id), None, c.coordinated, Asking, Inside, false))
    case CallDeploy(runtimes) =>
      Reserve(Enter(c, s, Task(Deploy, None, Some(|s.leases|), c.coordinated, Checking, Inside, false)), |s.tasks|, runtimes)
    case Check(i) => if s.tasks[i].op.Some? then Checked(c, s, i, s.tasks[i].op.value) else s
    case Persisted(i, ok, valid, runtimes) => if s.tasks[i].op.Some? then AfterPersist(s, i, ok, valid, runtimes) else s
    case Begin(i) => Go(Mark(s, i, Running), i, Starting)
    case Operate(i, id, now) =>
      Checked(c, Put(s, i, s.tasks[i].(op := Some(id))).(ops := Created(s.ops, id, now)), i, id)
    case GiveUp(i) => Go(s, i, Leaving)
    case Settled(i, ok) => AfterSettled(s, i, ok)
    case Forget(i, id) => s.(ops := s.ops - {id})
    case Finish(i) => Finally(s, i)
    case Return(i) => Put(CallerFinally(s, i), i, s.tasks[i].(caller := Returned))
    case BeginDrain => s.(draining := true)
  }

  predicate Run(c: Config, states: seq<State>, steps: seq<Step>) {
    && c.maxPending >= 1 && |states| == |steps| + 1 && Initial(states[0])
    && forall k :: 0 <= k < |steps| ==> Enabled(c, states[k], steps[k]) && states[k + 1] == Next(c, states[k], steps[k])
  }

  // ----- what every step keeps -----

  /** Until the end the caller is inside its frame exactly if it has not handed off; a deployment never does. */
  predicate FrameFits(t: Task) {
    && (t.caller == Returning ==> t.handedOff) && (t.kind == Deploy ==> !t.handedOff)
    && (if t.phase == Over then t.caller != Inside else t.caller == Inside <==> !t.handedOff)
    && (t.phase in {Asking, Persisting, Checking} ==> !t.handedOff)
      && (t.phase in {Asking, Queued} ==> t.kind != Deploy)
    && (t.phase in {Queued, Starting, Working, Writing} ==> (t.handedOff <==> t.kind != Deploy))
  }

  /** Before its hand-off a task has no reservation; a deployment has one from the start, staging never has any. */
  predicate LeaseFits(t: Task) {
    FrameFits(t) &&
    match t.phase
    case Asking => t.kind != Deploy && t.lease == None && t.op.Some?
    case Persisting => (t.lease.Some? <==> t.kind == Deploy) && t.op.Some?
    case Checking => t.kind == Deploy && t.lease.Some? && t.op == None
    case Leaving => t.kind == Deploy ==> t.lease.Some?
    case Over => t.kind == Deploy ==> t.lease.Some?
    case _ => (t.lease.Some? <==> t.kind != Stage) && t.op.Some?
  }

  /**
   A task's lease is its own, unreleased until the task is over, and its closure is called once, at the end, by one
   frame.
   */
  predicate LeaseOk(s: State, i: nat) {
    i < |s.tasks| ==>
      var t := s.tasks[i];
      && LeaseFits(t)
      && (t.lease.Some? ==>
            && t.lease.value < |s.leases| && t.lease.value < |s.handles|
            && s.handles[t.lease.value] == Handle(i, if t.phase.Over? && !t.handedOff then 1 else 0, if t.phase.Over?
              && t.handedOff then 1 else 0)
            && (s.leases[t.lease.value].released <==> t.phase.Over?))
  }

  predicate HandleOk(s: State, h: nat) {
    h < |s.handles| ==> s.handles[h].owner < |s.tasks| && s.tasks[s.handles[h].owner].lease == Some(h)
  }

  ghost predicate Ledgers(s: State) {
    && |s.handles| == |s.leases| && Counts(s.counts, s.leases)
    && (forall i: nat :: LeaseOk(s, i)) && (forall h: nat :: HandleOk(s, h))
  }

  /** The task `i` becomes `t`, or is new, with the same lease and not over. */
  lemma LedgersKept(s: State, s': State, i: nat)
    requires Ledgers(s) && s'.counts == s.counts && s'.leases == s.leases && s'.handles == s.handles
    requires i < |s'.tasks| && |s.tasks| <= |s'.tasks|
        && (forall j :: 0 <= j < |s.tasks| && j != i ==> s'.tasks[j] == s.tasks[j])
    requires LeaseFits(s'.tasks[i]) && !s'.tasks[i].phase.Over?
    requires if i < |s.tasks| then |s'.tasks| == |s.tasks| && s'.tasks[i].lease == s.tasks[i].lease
        && !s.tasks[i].phase.Over?
             else |s'.tasks| == |s.tasks| + 1 && i == |s.tasks| && s'.tasks[i].lease == None
    ensures Ledgers(s')
  {
    forall j: nat ensures LeaseOk(s', j) { assert LeaseOk(s, j); }
    forall h: nat ensures HandleOk(s', h) { assert HandleOk(s, h); }
  }

  /** The task `i` reserves and goes on. */
  lemma LedgersReserved(s: State, s': State, i: nat, runtimes: seq<nat>)
    requires Ledgers(s) && i <= |s.tasks| && |s'.tasks| == (if i < |s.tasks| then |s.tasks| else |s.tasks| + 1)
    requires forall j :: 0 <= j < |s.tasks| && j != i ==> s'.tasks[j] == s.tasks[j]
    requires i < |s.tasks| ==> s.tasks[i].lease == None
    requires s'.tasks[i].lease == Some(|s.leases|) && LeaseFits(s'.tasks[i]) && !s'.tasks[i].phase.Over?
    requires s'.counts == Added(s.counts, runtimes) && s'.leases == s.leases + [Lease(runtimes, false)]
    requires s'.handles == s.handles + [Handle(i, 0, 0)]
    ensures Ledgers(s')
  {
    CountsAfterReserve(s.counts, s.leases, runtimes);
    forall j: nat ensures LeaseOk(s', j) { assert LeaseOk(s, j); }
    forall h: nat ensures HandleOk(s', h) { assert HandleOk(s, h); }
  }

  /**
   What `finally` does for a task that leaves: the task is over, and its reservation, if any, is released by its frame.
   */
  lemma FinallyDoes(s: State, i: nat)
    requires LeaseOk(s, i) && At(s, i, Leaving) && |s.handles| == |s.leases|
    ensures var s', t := Finally(s, i), s.tasks[i];
            && s'.tasks == s.tasks[i := t.(phase := Over, caller := s'.tasks[i].caller)] && FrameFits(s'.tasks[i])
            && (if t.lease == None then s'.counts == s.counts && s'.leases == s.leases && s'.handles == s.handles
                else var h := t.lease.value;
                     && h < |s.leases| && !s.leases[h].released && s'.counts == Removed(s.counts, s.leases[h].runtimes)
                     && s'.leases == s.leases[h := s.leases[h].(released := true)]
                     && s'.handles ==
                        s.handles[h := Handle(i, if t.handedOff then 0 else 1, if t.handedOff then 1 else 0)])
  {
    hide Removed;
  }

  lemma LedgersFinished(c: Config, s: State, i: nat)
    requires Ledgers(s) && At(s, i, Leaving)
    ensures Ledgers(Finally(s, i))
  {
    hide Counts, Finally, FrameFits, Removed;
    var s', t := Finally(s, i), s.tasks[i];
    assert LeaseOk(s, i);
    FinallyDoes(s, i);
    if t.lease.Some? { CountsAfterRelease(s.counts, s.leases, t.lease.value); }
    forall j: nat ensures LeaseOk(s', j) { assert LeaseOk(s, j); }
    forall h: nat ensures HandleOk(s', h) { assert HandleOk(s, h); }
  }

  /** The caller's `finally` after the hand-off releases nothing. */
  lemma ReturnChanges(c: Config, s: State, i: nat)
    requires Ledgers(s) && Enabled(c, s, Return(i))
    ensures Next(c, s, Return(i)) == Put(s, i, s.tasks[i].(caller := Returned)) && s.tasks[i].handedOff
  {
    assert LeaseOk(s, i);
  }

  lemma LedgersReturned(s: State, i: nat)
    requires Ledgers(s) && i < |s.tasks| && s.tasks[i].caller == Returning
    ensures Ledgers(Put(s, i, s.tasks[i].(caller := Returned)))
  {
    var s' := Put(s, i, s.tasks[i].(caller := Returned));
    forall j: nat ensures LeaseOk(s', j) { assert LeaseOk(s, j); }
    forall h: nat ensures HandleOk(s', h) { assert HandleOk(s, h); }
  }

  function Rank(phase: Phase): nat {
    match phase
    case Asking => 7
    case Checking => 7
    case Persisting => 6
    case Queued => 5
    case Starting => 4
    case Working => 3
    case Writing => 2
    case Leaving => 1
    case Over => 0
  }

  /** Only operations and the place of one task change, and its rank falls. */
  predicate OnlyMoved(s: State, s': State, i: nat) {
    && s' == s.(ops := s'.ops, tasks := s'.tasks) && |s'.tasks| == |s.tasks| && i < |s.tasks|
    && (forall j :: 0 <= j < |s.tasks| && j != i ==> s'.tasks[j] == s.tasks[j])
    && s'.tasks[i] == s.tasks[i].(op := s'.tasks[i].op, phase := s'.tasks[i].phase)
    && LeaseFits(s'.tasks[i]) && Rank(s'.tasks[i].phase) < Rank(s.tasks[i].phase) && !s'.tasks[i].phase.Over?
  }

  lemma CheckMoves(c: Config, s: State, i: nat)
    requires LeaseOk(s, i) && At(s, i, Asking)
    ensures OnlyMoved(s, Next(c, s, Check(i)), i)
  {
    hide Decided, Refuses;
  }

  lemma OperateMoves(c: Config, s: State, i: nat, id: nat, now: int)
    requires LeaseOk(s, i) && At(s, i, Checking) && Fresh(s, id)
    ensures OnlyMoved(s, Next(c, s, Operate(i, id, now)), i)
  {
    hide Decided, Refuses, Fresh, Created;
  }

  lemma GoMoves(s: State, s1: State, i: nat, phase: Phase)
    requires i < |s.tasks| && s1 == s.(ops := s1.ops)
    requires LeaseFits(s.tasks[i].(phase := phase)) && Rank(phase) < Rank(s.tasks[i].phase) && phase != Over
    ensures OnlyMoved(s, Go(s1, i, phase), i)
  {
  }

  lemma SettledMoves(c: Config, s: State, i: nat, ok: bool)
    requires LeaseOk(s, i) && Enabled(c, s, Settled(i, ok))
    ensures OnlyMoved(s, Next(c, s, Settled(i, ok)), i)
  {
    hide Mark, Go, OnlyMoved;
    var phase := s.tasks[i].phase;
    if phase.Working? { GoMoves(s, Mark(s, i, if ok then Succeeded else Failed), i, Writing); }
    else { GoMoves(s, if ok then s else Mark(s, i, Failed), i, if ok && phase.Starting? then Working else Leaving); }
  }

  lemma PlainMoves(c: Config, s: State, e: Step)
    requires (e.Begin? || e.GiveUp?) && LeaseOk(s, e.i) && Enabled(c, s, e)
    ensures OnlyMoved(s, Next(c, s, e), e.i)
  {
    hide Mark;
  }

  /** The steps that move one task and touch no reservation. */
  lemma MovesOnly(c: Config, s: State, e: Step)
    requires Moves(e) && LeaseOk(s, e.i) && Enabled(c, s, e)
    ensures OnlyMoved(s, Next(c, s, e), e.i)
  {
    hide OnlyMoved, Next, LeaseOk;
    match e
    case Check(i) => CheckMoves(c, s, i);
    case Operate(i, id, now) => OperateMoves(c, s, i, id, now);
    case Settled(i, ok) => SettledMoves(c, s, i, ok);
    case _ => PlainMoves(c, s, e);
  }

  predicate Moves(e: Step) { e.Check? || e.Begin? || e.Operate? || e.GiveUp? || e.Settled? }

  lemma MovedLedgers(c: Config, s: State, e: Step)
    requires Ledgers(s) && Enabled(c, s, e) && Moves(e)
    ensures Ledgers(Next(c, s, e))
  {
    assert LeaseOk(s, e.i);
    MovesOnly(c, s, e);
    hide Ledgers, Next, LeaseFits;
    LedgersKept(s, Next(c, s, e), e.i);
  }

  lemma PersistedLedgers(c: Config, s: State, i: nat, ok: bool, valid: bool, runtimes: seq<nat>)
    requires Ledgers(s) && At(s, i, Persisting)
    ensures Ledgers(Next(c, s, Persisted(i, ok, valid, runtimes)))
  {
    assert LeaseOk(s, i);
    hide Ledgers, Moved;
    var s' := Next(c, s, Persisted(i, ok, valid, runtimes));
    if ok && valid && s.tasks[i].kind in {Activate, Rollback} { LedgersReserved(s, s', i, runtimes); }
    else { LedgersKept(s, s', i); }
  }

  lemma CalledLedgers(c: Config, s: State, e: Step)
    requires Ledgers(s) && Enabled(c, s, e) && (e.Call? || e.CallDeploy?)
    ensures Ledgers(Next(c, s, e))
  {
    hide Ledgers, Moved, Created, Fresh;
    if e.Call? { LedgersKept(s, Next(c, s, e), |s.tasks|); }
    else { LedgersReserved(s, Next(c, s, e), |s.tasks|, e.runtimes); }
  }

  lemma StepLedgers(c: Config, s: State, e: Step)
    requires Ledgers(s) && Enabled(c, s, e)
    ensures Ledgers(Next(c, s, e))
  {
    if e.Call? || e.CallDeploy? { CalledLedgers(c, s, e); }
    else if e.Persisted? { PersistedLedgers(c, s, e.i, e.ok, e.valid, e.runtimes); }
    else if e.Finish? { LedgersFinished(c, s, e.i); }
    else if e.Return? { ReturnChanges(c, s, e.i); LedgersReturned(s, e.i); }
    else if e.BeginDrain? || e.Forget? {
      forall j: nat ensures LeaseOk(Next(c, s, e), j) { assert LeaseOk(s, j); }
      forall h: nat ensures HandleOk(Next(c, s, e), h) { assert HandleOk(s, h); }
    }
    else { MovedLedgers(c, s, e); }
  }

  // ----- operations -----

  predicate Has(ops: map<nat, Operation>, id: nat, status: Status, admitted: bool) {
    id in ops && ops[id].status == status && ops[id].admitted == admitted
  }

  /** Where a task is tells how its operation stands; one that is closed may have been forgotten. */
  predicate OpFits(ops: map<nat, Operation>, t: Task) {
    t.op.Some? ==>
      match t.phase
      case Asking => Has(ops, t.op.value, Pending, false)
      case Persisting => Has(ops, t.op.value, Pending, true)
      case Queued => Has(ops, t.op.value, Pending, true)
      case Starting => Has(ops, t.op.value, Running, true)
      case Working => Has(ops, t.op.value, Running, true)
      case Checking => false
      case _ => t.op.value in ops ==> !Open(ops[t.op.value].status)
  }

  predicate OpOk(s: State, i: nat) { i < |s.tasks| ==> OpFits(s.ops, s.tasks[i]) }

  predicate Apart(s: State, i: nat, j: nat) {
    i < |s.tasks| && j < |s.tasks| && i != j && s.tasks[i].op.Some? ==> s.tasks[i].op != s.tasks[j].op
  }

  ghost predicate OpOwned(s: State, id: nat) {
    id in s.ops && Open(s.ops[id].status) ==> exists i :: 0 <= i < |s.tasks| && s.tasks[i].op == Some(id)
  }

  ghost predicate Operations(c: Config, s: State) {
    && c.maxPending >= 1 && |AdmittedOpen(s.ops)| <= c.maxPending
    && (forall i: nat :: OpOk(s, i)) && (forall i: nat, j: nat :: Apart(s, i, j)) && (forall id: nat :: OpOwned(s, id))
  }

  /** Task `i` and its operation change; the other tasks and operations stay. */
  lemma OperationsKept(c: Config, s: State, s': State, i: nat, id: nat)
    requires Operations(c, s) && |AdmittedOpen(s'.ops)| <= c.maxPending
    requires i < |s'.tasks| && |s.tasks| <= |s'.tasks| <= |s.tasks| + 1 && (|s'.tasks| > |s.tasks| ==> i == |s.tasks|)
    requires forall j :: 0 <= j < |s.tasks| && j != i ==> s'.tasks[j] == s.tasks[j]
    requires s'.tasks[i].op == Some(id) && OpFits(s'.ops, s'.tasks[i])
    requires (i < |s.tasks| && s.tasks[i].op == Some(id)) || Fresh(s, id)
    requires i < |s.tasks| ==> s.tasks[i].op in {None, Some(id)}
    requires s'.ops - {id} == s.ops - {id}
    ensures Operations(c, s')
  {
    hide AdmittedOpen;
    assert forall x :: x != id ==> (x in s.ops <==> x in s.ops - {id}) && (x in s'.ops <==> x in s'.ops - {id});
    assert forall x :: x != id && x in s.ops ==> s.ops[x] == (s.ops - {id})[x] && s'.ops[x] == (s'.ops - {id})[x];
    forall j: nat ensures OpOk(s', j) {
      assert OpOk(s, j) && Apart(s, i, j);
    }
    forall j: nat, k: nat ensures Apart(s', j, k) { assert Apart(s, j, k); }
    forall x: nat ensures OpOwned(s', x) {
      if x == id { assert s'.tasks[i].op == Some(x); }
      else { OwnerStays(s, s', i, id, x); }
    }
  }

  lemma OwnerStays(s: State, s': State, i: nat, id: nat, x: nat)
    requires x != id && OpOwned(s, x) && |s.tasks| <= |s'.tasks|
        && (x in s'.ops ==> x in s.ops && s'.ops[x] == s.ops[x])
    requires forall j :: 0 <= j < |s.tasks| && j != i ==> s'.tasks[j] == s.tasks[j]
    requires i < |s.tasks| ==> s.tasks[i].op in {None, Some(id)}
    ensures OpOwned(s', x)
  {
    if x in s.ops && Open(s.ops[x].status) {
      var j :| 0 <= j < |s.tasks| && s.tasks[j].op == Some(x);
      assert s'.tasks[j].op == Some(x);
    }
  }

  /** The operations stay, and task `i` goes to a place that fits. */
  lemma OperationsSame(c: Config, s: State, s': State, i: nat)
    requires Operations(c, s) && s'.ops == s.ops
    requires i < |s'.tasks| && |s.tasks| <= |s'.tasks| <= |s.tasks| + 1 && (|s'.tasks| > |s.tasks| ==> i == |s.tasks|)
    requires forall j :: 0 <= j < |s.tasks| && j != i ==> s'.tasks[j] == s.tasks[j]
    requires OpFits(s.ops, s'.tasks[i]) && s'.tasks[i].op == if i < |s.tasks| then s.tasks[i].op else None
    ensures Operations(c, s')
  {
    forall j: nat ensures OpOk(s', j) { assert OpOk(s, j); }
    forall j: nat, k: nat ensures Apart(s', j, k) { assert Apart(s, j, k); }
    forall x: nat ensures OpOwned(s', x) {
      assert OpOwned(s, x);
      if x in s.ops && Open(s.ops[x].status) {
        var j :| 0 <= j < |s.tasks| && s.tasks[j].op == Some(x);
        assert s'.tasks[j].op == Some(x);
      }
    }
  }

  lemma CalledOperations(c: Config, s: State, e: Step)
    requires Operations(c, s) && Enabled(c, s, e) && e.Call?
    ensures Operations(c, Next(c, s, e))
  {
    CreatedWithin(s.ops, e.id, e.now, c.maxPending);
    MovedWithin(Created(s.ops, e.id, e.now), e.id, Failed, c.maxPending);
    hide Operations, AdmittedOpen;
    OperationsKept(c, s, Next(c, s, e), |s.tasks|, e.id);
  }

  lemma CheckedOperations(c: Config, s: State, e: Step)
    requires Operations(c, s) && (forall i: nat :: LeaseOk(s, i)) && Enabled(c, s, e) && (e.Check? || e.Operate?)
    ensures Operations(c, Next(c, s, e))
  {
    assert LeaseOk(s, e.i) && OpOk(s, e.i);
    var id := if e.Check? then s.tasks[e.i].op.value else e.id;
    var ops := if e.Check? then s.ops else Created(s.ops, e.id, e.now);
    if e.Operate? { CreatedWithin(s.ops, e.id, e.now, c.maxPending); }
    DecidedWithin(ops, id, c.maxPending);
    hide Operations, AdmittedOpen, Refuses;
    OperationsKept(c, s, Next(c, s, e), e.i, id);
  }

  lemma MarkedOperations(c: Config, s: State, s': State, i: nat, status: Status)
    requires Operations(c, s) && i < |s.tasks| == |s'.tasks| && s.tasks[i].op.Some?
    requires s' == Go(Mark(s, i, status), i, s'.tasks[i].phase)
    requires s.tasks[i].op.value in s.ops && Open(status) ==> Open(s.ops[s.tasks[i].op.value].status)
    requires OpFits(s'.ops, s'.tasks[i])
    ensures Operations(c, s')
  {
    MovedWithin(s.ops, s.tasks[i].op.value, status, c.maxPending);
    OperationsKept(c, s, s', i, s.tasks[i].op.value);
  }

  lemma PersistedOperations(c: Config, s: State, i: nat, ok: bool, valid: bool, runtimes: seq<nat>)
    requires Operations(c, s) && LeaseOk(s, i) && At(s, i, Persisting)
    ensures Operations(c, Next(c, s, Persisted(i, ok, valid, runtimes)))
  {
    assert OpOk(s, i);
    var s', t := Next(c, s, Persisted(i, ok, valid, runtimes)), s.tasks[i];
    if !ok {
      ForgottenWithin(s.ops, t.op.value, c.maxPending);
      OperationsKept(c, s, s', i, t.op.value);
    } else if t.kind == Deploy {
      MarkedOperations(c, s, s', i, Running);
    } else if !valid {
      MarkedOperations(c, s, s', i, Failed);
    } else {
      OperationsSame(c, s, s', i);
    }
  }

  lemma SettledOperations(c: Config, s: State, i: nat, ok: bool)
    requires Operations(c, s) && LeaseOk(s, i) && Enabled(c, s, Settled(i, ok))
    ensures Operations(c, Next(c, s, Settled(i, ok)))
  {
    assert OpOk(s, i);
    var s' := Next(c, s, Settled(i, ok));
    if At(s, i, Working) { MarkedOperations(c, s, s', i, if ok then Succeeded else Failed); }
    else if ok { OperationsSame(c, s, s', i); }
    else { MarkedOperations(c, s, s', i, Failed); }
  }

  lemma ForgottenOperations(c: Config, s: State, i: nat, id: nat)
    requires Operations(c, s) && Enabled(c, s, Forget(i, id))
    ensures Operations(c, Next(c, s, Forget(i, id)))
  {
    var s' := Next(c, s, Forget(i, id));
    ForgottenWithin(s.ops, id, c.maxPending);
    hide AdmittedOpen;
    forall j: nat ensures OpOk(s', j) { assert OpOk(s, j); }
    forall j: nat, k: nat ensures Apart(s', j, k) { assert Apart(s, j, k); }
    forall x: nat ensures OpOwned(s', x) { assert OpOwned(s, x); }
  }

  lemma StepOperations(c: Config, s: State, e: Step)
    requires Operations(c, s) && Ledgers(s) && Enabled(c, s, e)
    ensures Operations(c, Next(c, s, e))
  {
    match e
    case Call(_, _, _) => CalledOperations(c, s, e);
    case Check(_) => CheckedOperations(c, s, e);
    case Operate(_, _, _) => CheckedOperations(c, s, e);
    case Persisted(i, ok, valid, runtimes) => assert LeaseOk(s, i); PersistedOperations(c, s, i, ok, valid, runtimes);
    case Settled(i, ok) => assert LeaseOk(s, i); SettledOperations(c, s, i, ok);
    case Forget(i, id) => ForgottenOperations(c, s, i, id);
    case Begin(i) => assert LeaseOk(s, i); BegunOperations(c, s, i);
    case _ => PlainOperations(c, s, e);
  }

  lemma BegunOperations(c: Config, s: State, i: nat)
    requires Operations(c, s) && LeaseOk(s, i) && At(s, i, Queued)
    ensures Operations(c, Next(c, s, Begin(i)))
  {
    assert OpOk(s, i);
    hide Operations;
    MarkedOperations(c, s, Next(c, s, Begin(i)), i, Running);
  }

  /** These steps change no operation. */
  lemma PlainOperations(c: Config, s: State, e: Step)
    requires Operations(c, s) && Ledgers(s) && Enabled(c, s, e)
    requires e.CallDeploy? || e.GiveUp? || e.Finish? || e.Return? || e.BeginDrain?
    ensures Operations(c, Next(c, s, e))
  {
    var s' := Next(c, s, e);
    if e.BeginDrain? {
      forall j: nat ensures OpOk(s', j) { assert OpOk(s, j); }
      forall j: nat, k: nat ensures Apart(s', j, k) { assert Apart(s, j, k); }
      forall x: nat ensures OpOwned(s', x) { assert OpOwned(s, x); }
    } else {
      var i: nat := if e.CallDeploy? then |s.tasks| else e.i;
      assert LeaseOk(s, i) && OpOk(s, i);
      if e.Return? { ReturnChanges(c, s, i); }
      hide Operations, Ledgers, Added, Removed;
      OperationsSame(c, s, s', i);
    }
  }

  // ----- the mutation coordinator -----

  predicate Holder(s: State, i: nat) { i < |s.tasks| && s.tasks[i].granted && !s.tasks[i].phase.Over? }

  /** With a coordinator a task that was not granted only reports its refusal. */
  predicate GrantOk(c: Config, s: State, i: nat) {
    i < |s.tasks| ==>
      && (s.tasks[i].granted ==> c.coordinated)
      && (c.coordinated && !s.tasks[i].granted ==> s.tasks[i].phase in {Leaving, Over})
      && (Holder(s, i) ==> s.busy == Some(s.tasks[i].kind))
  }

  predicate OneHolder(s: State, i: nat, j: nat) { Holder(s, i) && Holder(s, j) ==> i == j }

  ghost predicate Coordinator(c: Config, s: State) {
    && (forall i: nat :: GrantOk(c, s, i)) && (forall i: nat, j: nat :: OneHolder(s, i, j))
    && (s.busy.Some? ==> exists i: nat :: Holder(s, i))
  }

  /** Tasks keep what they were granted, and none becomes or ceases to be over. */
  lemma CoordinatorKept(c: Config, s: State, s': State)
    requires Coordinator(c, s) && s'.busy == s.busy && |s'.tasks| == |s.tasks|
    requires forall i :: 0 <= i < |s.tasks| ==>
               && s'.tasks[i].granted == s.tasks[i].granted && s'.tasks[i].kind == s.tasks[i].kind
               && (s'.tasks[i].phase.Over? <==> s.tasks[i].phase.Over?)
               && (s.tasks[i].phase.Leaving? ==> s'.tasks[i].phase.Leaving?)
    ensures Coordinator(c, s')
  {
    forall i: nat ensures GrantOk(c, s', i) { assert GrantOk(c, s, i); }
    forall i: nat, j: nat ensures OneHolder(s', i, j) { assert OneHolder(s, i, j); }
    if s.busy.Some? { var i: nat :| Holder(s, i); assert Holder(s', i); }
  }

  lemma CalledCoordinator(c: Config, s: State, e: Step)
    requires Coordinator(c, s) && Enabled(c, s, e) && (e.Call? || e.CallDeploy?)
    ensures Coordinator(c, Next(c, s, e))
  {
    var s' := Next(c, s, e);
    var n: nat := |s.tasks|;
    assert forall i: nat :: i < n ==> s'.tasks[i] == s.tasks[i];
    forall i: nat ensures GrantOk(c, s', i) { assert GrantOk(c, s, i); }
    forall i: nat, j: nat ensures OneHolder(s', i, j) {
      assert OneHolder(s, i, j) && GrantOk(c, s, i) && GrantOk(c, s, j);
    }
    if s'.busy.Some? {
      if s.busy.Some? { var i: nat :| Holder(s, i); assert Holder(s', i); } else { assert Holder(s', n); }
    }
  }

  lemma FinishedCoordinator(c: Config, s: State, i: nat)
    requires Coordinator(c, s) && At(s, i, Leaving) && LeaseOk(s, i)
    ensures Coordinator(c, Finally(s, i))
  {
    var s' := Finally(s, i);
    assert s'.busy == Release(s, i, !s.tasks[i].handedOff).busy;
    hide Release;
    assert GrantOk(c, s, i);
    forall j: nat ensures GrantOk(c, s', j) { assert GrantOk(c, s, j) && OneHolder(s, i, j); }
    forall j: nat, k: nat ensures OneHolder(s', j, k) { assert OneHolder(s, j, k); }
    if s'.busy.Some? { var j: nat :| Holder(s, j); assert Holder(s', j); }
  }

  lemma StepCoordinator(c: Config, s: State, e: Step)
    requires Coordinator(c, s) && Ledgers(s) && Enabled(c, s, e)
    ensures Coordinator(c, Next(c, s, e))
  {
    if e.Call? || e.CallDeploy? { CalledCoordinator(c, s, e); }
    else if e.Finish? { assert LeaseOk(s, e.i); FinishedCoordinator(c, s, e.i); }
    else if e.Return? { ReturnChanges(c, s, e.i); CoordinatorKept(c, s, Next(c, s, e)); }
    else if e.BeginDrain? || e.Forget? { CoordinatorKept(c, s, Next(c, s, e)); }
    else { MovedCoordinator(c, s, e); }
  }

  lemma MovedCoordinator(c: Config, s: State, e: Step)
    requires Coordinator(c, s) && Ledgers(s) && Enabled(c, s, e) && (Moves(e) || e.Persisted?)
    ensures Coordinator(c, Next(c, s, e))
  {
    assert LeaseOk(s, e.i);
    hide Coordinator, Ledgers, Moved;
    if e.Persisted? {
      PersistedCoordinator(c, s, e.i, e.ok, e.valid, e.runtimes);
    } else {
      MovesOnly(c, s, e);
      hide Next;
      CoordinatorKept(c, s, Next(c, s, e));
    }
  }

  lemma PersistedCoordinator(c: Config, s: State, i: nat, ok: bool, valid: bool, runtimes: seq<nat>)
    requires Coordinator(c, s) && LeaseOk(s, i) && At(s, i, Persisting)
    ensures Coordinator(c, Next(c, s, Persisted(i, ok, valid, runtimes)))
  {
    hide Coordinator, Mark, Added;
    CoordinatorKept(c, s, Next(c, s, Persisted(i, ok, valid, runtimes)));
  }

  // ----- what holds in every run -----

  lemma {:induction false} RunInv(c: Config, states: seq<State>, steps: seq<Step>, k: nat)
    requires Run(c, states, steps) && k < |states|
    ensures Ledgers(states[k]) && Operations(c, states[k]) && Coordinator(c, states[k])
  {
    if k > 0 {
      RunInv(c, states, steps, k - 1);
      StepLedgers(c, states[k - 1], steps[k - 1]);
      StepOperations(c, states[k - 1], steps[k - 1]);
      StepCoordinator(c, states[k - 1], steps[k - 1]);
    }
  }

  /** The task is not over and has reserved the runtime. */
  predicate Reserves(s: State, i: nat, r: nat) {
    i < |s.tasks| && !s.tasks[i].phase.Over? && s.tasks[i].lease.Some? && s.tasks[i].lease.value < |s.leases|
    && r in s.leases[s.tasks[i].lease.value].runtimes
  }

  lemma ReservedIsCounted(s: State, i: nat, r: nat)
    requires Ledgers(s) && Reserves(s, i, r)
    ensures CountOf(s.counts, r) > 0
  {
    assert LeaseOk(s, i);
    var h := s.tasks[i].lease.value;
    assert !s.leases[h].released && r in s.leases[h].runtimes;
    HeldExactlyWhenCovered(s.leases, r);
  }

  /** `hasActiveOperations` */
  ghost predicate HasActiveOperations(s: State) {
    (exists id :: id in s.ops && Open(s.ops[id].status)) || s.counts != map[]
  }

  predicate OpenOperation(s: State, i: nat) {
    i < |s.tasks| && s.tasks[i].op.Some? && s.tasks[i].phase in {Asking, Persisting, Queued, Starting, Working}
  }

  /** When every task is over, nothing is left: no reservation, no open operation, and the coordinator is free. */
  lemma AllOver(c: Config, s: State)
    requires Ledgers(s) && Operations(c, s) && Coordinator(c, s)
    requires forall i :: 0 <= i < |s.tasks| ==> s.tasks[i].phase.Over?
    ensures s.counts == map[] && !HasActiveOperations(s) && s.busy == None
  {
    forall h: nat ensures h < |s.leases| ==> s.leases[h].released {
      assert HandleOk(s, h);
      if h < |s.leases| { assert LeaseOk(s, s.handles[h].owner); }
    }
    forall r: nat ensures r !in s.counts { HeldExactlyWhenCovered(s.leases, r); }
    forall id: nat ensures !(id in s.ops && Open(s.ops[id].status)) {
      forall i: nat ensures i < |s.tasks| && s.tasks[i].op == Some(id) && id in s.ops ==> !Open(s.ops[id].status) {
        assert OpOk(s, i);
      }
      assert OpOwned(s, id);
    }
    assert forall i: nat :: !Holder(s, i);
  }

  // ----- progress -----

  /** The step is the next one of task `i`, not an operation forgotten on its way out. */
  predicate StepOf(e: Step, i: nat) {
    match e
    case Check(j) => i == j
    case Persisted(j, _, _, _) => i == j
    case Begin(j) => i == j
    case Operate(j, _, _) => i == j
    case GiveUp(j) => i == j
    case Settled(j, _) => i == j
    case Finish(j) => i == j
    case _ => false
  }

  lemma RankFalls(c: Config, s: State, e: Step, i: nat)
    requires LeaseOk(s, i) && Enabled(c, s, e) && StepOf(e, i)
    ensures i < |Next(c, s, e).tasks| && Rank(Next(c, s, e).tasks[i].phase) < Rank(s.tasks[i].phase)
  {
    if Moves(e) {
      MovesOnly(c, s, e);
      hide Next;
    } else if e.Finish? {
      hide Release, Mark, Added;
    } else {
      hide Mark, Added, Removed;
    }
  }

  // ----- reservations without an open operation -----

  const Plain := Config(64, 1000, false)
  const Empty := State(map[], map[], [], [], [], None, false)

  /** An activation that has succeeded, with the write of its end still going on. */
  const ActivationSteps := [Call(Activate, 1, 0), Check(0), Persisted(0, true, true, [7]), Begin(0), Settled(0, true),
      Settled(0, true)]

  const task := Task(Activate, Some(1), None, false, Asking, Inside, false)
  const queued := HandOff(task.(lease := Some(0)))
  const A1 := Empty.(ops := map[1 := Operation(Pending, 0, false)], tasks := [task])
  const A2 := A1.(ops := map[1 := Operation(Pending, 0, true)], tasks := [task.(phase := Persisting)])
  const A3 := A2.(counts := map[7 := 1], leases := [Lease([7], false)], handles := [Handle(0, 0, 0)], tasks := [queued])
  const A4 := A3.(ops := map[1 := Operation(Running, 0, true)], tasks := [queued.(phase := Starting)])
  const A5 := A4.(tasks := [queued.(phase := Working)])
  const A6 := A5.(ops := map[1 := Operation(Succeeded, 0, true)], tasks := [queued.(phase := Writing)])

  /** A deployment before it has created its operation, if it ever does. */
  const Deploying := Empty.(counts := map[7 := 1], leases := [Lease([7], false)], handles := [Handle(0, 0, 0)],
                            tasks := [Task(Deploy, None, Some(0), false, Checking, Inside, false)])

  lemma SevenAdded()
    ensures Added(map[], [7]) == map[7 := 1]
  {
    assert [7][..0] == [];
  }

  const Activation := [Empty, A1, A2, A3, A4, A5, A6]

  lemma ActivationReserves()
    ensures Enabled(Plain, Empty, ActivationSteps[0]) && Next(Plain, Empty, ActivationSteps[0]) == A1
    ensures Enabled(Plain, A2, ActivationSteps[2]) && Next(Plain, A2, ActivationSteps[2]) == A3
  {
    SevenAdded();
  }

  lemma ActivationAdmitted()
    ensures Enabled(Plain, A1, ActivationSteps[1]) && Next(Plain, A1, ActivationSteps[1]) == A2
  {
    assert OpenOthers(A1.ops, 1) == {};
  }

  lemma ActivationCloses()
    ensures Enabled(Plain, A3, ActivationSteps[3]) && Next(Plain, A3, ActivationSteps[3]) == A4
    ensures Enabled(Plain, A4, ActivationSteps[4]) && Next(Plain, A4, ActivationSteps[4]) == A5
    ensures Enabled(Plain, A5, ActivationSteps[5]) && Next(Plain, A5, ActivationSteps[5]) == A6
  {
  }

  lemma ActivationStep(k: nat)
    requires k < 6
    ensures Enabled(Plain, Activation[k], ActivationSteps[k])
        && Activation[k + 1] == Next(Plain, Activation[k], ActivationSteps[k])
  {
    hide Enabled, Next;
    if k == 1 { ActivationAdmitted(); } else if k < 3 { ActivationReserves(); } else { ActivationCloses(); }
  }

  lemma ActivationRun()
    ensures Run(Plain, Activation, ActivationSteps)
  {
    hide Enabled, Next;
    assert AdmittedOpen(map[]) == {};
    forall k: nat | k < 6
      ensures Enabled(Plain, Activation[k], ActivationSteps[k])
          && Activation[k + 1] == Next(Plain, Activation[k], ActivationSteps[k])
    {
      ActivationStep(k);
    }
  }

  lemma DeploymentRun()
    ensures Run(Plain, [Empty, Deploying], [CallDeploy([7])])
  {
    SevenAdded();
    assert AdmittedOpen(map[]) == {};
  }

  /**
   A runtime can be reserved while no operation is open, at either end: after an operation has closed, and before a
   deployment has one. So the test of the reservations in `hasActiveOperations` is needed.
   */
  lemma ReservedWithoutOpenOperation()
    ensures Run(Plain, Activation, ActivationSteps) && Run(Plain, [Empty, Deploying], [CallDeploy([7])])
    ensures forall s :: s in {A6, Deploying} ==>
              (forall id :: id in s.ops ==> !Open(s.ops[id].status)) && HasActiveOperations(s)
  {
    ActivationRun();
    DeploymentRun();
    hide Run;
    assert 7 in A6.counts && 7 in Deploying.counts;
  }
}
