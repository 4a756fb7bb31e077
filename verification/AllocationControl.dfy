/**
 The allocation control plane: requests, admission, the waiting queue and its promotion, startup, release, preemption
 and expiry, acting on shared allocation and operation records.

 A step is one stretch of code between two awaits of one thread of control, or one call from outside. Threads are the
 control chain (0), the audio promotion (1) and the independent audio startups (2 and up). What the model cannot see
 (clocks, observations, holds, outcomes of a startup) is an input of the step,
   so a run is any interleaving with any inputs.
 */
module AllocationControl {
  import opened Prelude

  datatype Status = Waiting | Pending | Ready | Failed | Released | Expired

  predicate Active(s: Status) { s in {Waiting, Pending, Ready} }
  predicate Admitted(s: Status) { s in {Pending, Ready} }

  datatype OpStatus = Queued | Running | Succeeded | OpFailed | TimedOut | Cancelled

  predicate Open(o: OpStatus) { o in {Queued, Running} }

  /** Where the one startup of an allocation is; the code has no such field, only the proofs use it. */
  datatype Slot = NoSlot | InChain | OnThread(t: nat)

  datatype Allocation = Allocation(status: Status, op: Option<nat>, runtimes: set<nat>, priority: int, created: int,
                                   expiresAt: int, audio: bool, existingOnly: bool, slot: Slot)

  /**
   The registry: capacity, swap group, node and memory of each runtime, the residents, and the memory of each node.
   */
  datatype Config = Config(capacity: map<nat, nat>, swapGroup: map<nat, nat>, node: nat -> nat, memory: nat -> nat,
                           resident: set<nat>, usable: nat -> nat, foreground: int)

  datatype Task = Promote | Startup(a: nat, o: nat)

  datatype Batch = Batch(audio: bool, todo: seq<nat>, retry: bool)

  datatype Pc =
    | Free                                        // the control chain runs nothing
    | Begin(audio: bool)                          // a promotion about to run
    | Ticking(audio: bool)                        // a promotion waiting for a fresh observation
    | Looping(batch: Batch)
    | Launch(a: nat, o: nat)                      // an independent audio startup about to run
    | Starting(a: nat, o: nat, rest: Option<Batch>)
    | Cleaning(rest: Option<Batch>)               // the end of a startup whose allocation is not active any more
    | Ended                                       // over, but not yet forgotten

  /** `missed` is history: the audio waiters that the last wake-up did not reach. */
  datatype State = State(allocs: map<nat, Allocation>, ops: map<nat, OpStatus>, chain: seq<Task>, threads: map<nat, Pc>,
                         timer: bool, draining: bool, now: int, nextA: nat, nextO: nat, missed: set<nat>)

  const Initial := State(map[], map[], [], map[0 := Free], false, false, 0, 0, 0, {})

  // ----- conflicts and admission -----

  /** `runtimeSetsConflict` */
  predicate Conflict(c: Config, requested: set<nat>, existing: set<nat>, exclusive: bool) {
    exists r, e | r in requested && e in existing ::
      if r == e then !exclusive || (r in c.capacity && c.capacity[r] == 1)
      else r in c.swapGroup && e in c.swapGroup && c.swapGroup[r] == c.swapGroup[e]
  }

  ghost predicate ConflictsWith(c: Config, s: State, runtimes: set<nat>, b: nat, exclusive: bool) {
    b in s.allocs && Conflict(c, runtimes, s.allocs[b].runtimes, exclusive)
  }

  ghost predicate ConflictsWithAdmitted(c: Config, s: State, runtimes: set<nat>) {
    exists b :: ConflictsWith(c, s, runtimes, b, false) && Admitted(s.allocs[b].status)
  }

  ghost predicate ConflictsWithHigher(c: Config, s: State, runtimes: set<nat>, priority: int) {
    exists b :: ConflictsWith(c, s, runtimes, b, true) && Admitted(s.allocs[b].status) && s.allocs[b].priority > priority
  }

  ghost predicate ConflictsWithWaiter(c: Config, s: State, runtimes: set<nat>, priority: int) {
    exists b :: ConflictsWith(c, s, runtimes, b, true) && s.allocs[b].status == Waiting && s.allocs[b].priority >= priority
  }

  /** The admitted allocations that use a runtime. */
  ghost function Users(s: State, r: nat): set<nat> {
    set b | b in s.allocs && Admitted(s.allocs[b].status) && r in s.allocs[b].runtimes
  }

  /** The runtimes of all admitted allocations. */
  ghost function InUse(s: State): set<nat> {
    set b, r | b in s.allocs && Admitted(s.allocs[b].status) && r in s.allocs[b].runtimes :: r
  }

  /** The declared memory of a set of runtimes on one node. */
  ghost function Memory(c: Config, n: nat, runtimes: set<nat>): nat {
    if runtimes == {} then 0
    else
      var r :| r in runtimes;
      (if c.node(r) == n then c.memory(r) else 0) + Memory(c, n, runtimes - {r})
  }

  /**
   What admission sees besides the allocations: runtimes observed to hold memory, service reservations, other checks.
   */
  datatype Observation = Observation(committed: set<nat>, service: nat -> nat, telemetryOk: bool)

  /** `admitRuntimes`: memory of every node, live telemetry, and the capacity of every candidate runtime. */
  ghost predicate AdmissionOk(c: Config, s: State, candidates: set<nat>, obs: Observation) {
    var committed := InUse(s) + c.resident + obs.committed;
    && (forall n :: Memory(c, n, committed) + Memory(c, n, candidates - committed) + obs.service(n) <= c.usable(n))
    && obs.telemetryOk
    && (forall r :: r in candidates && r in c.capacity && c.capacity[r] != 0 ==> |Users(s, r)| < c.capacity[r])
  }

  // ----- small moves -----

  ghost predicate IsActive(s: State, a: nat) {
    a in s.allocs && Active(s.allocs[a].status)
  }

  function SetStatus(s: State, a: nat, status: Status): State
    requires a in s.allocs
  {
    s.(allocs := s.allocs[a := s.allocs[a].(status := status)])
  }

  function SetOp(s: State, o: Option<nat>, status: OpStatus): State {
    if o.Some? && o.value in s.ops then s.(ops := s.ops[o.value := status]) else s
  }

  ghost predicate HasWaiting(s: State) {
    exists a :: a in s.allocs && s.allocs[a].status == Waiting
  }

  ghost predicate HasAudioWaiting(s: State) {
    exists a :: a in s.allocs && s.allocs[a].status == Waiting && s.allocs[a].audio
  }

  /** A promotion that has not yet listed the waiters it will look at. */
  predicate BeforeSnapshot(pc: Pc) {
    pc.Begin? || pc.Ticking?
  }

  function BatchOf(pc: Pc): Option<Batch> {
    match pc
    case Looping(batch) => Some(batch)
    case Starting(_, _, rest) => rest
    case Cleaning(rest) => rest
    case _ => None
  }

  /** The promotion in progress will still look at the waiter, or will arm the retry timer. */
  predicate InBatch(s: State, a: nat, t: nat) {
    t in s.threads && BatchOf(s.threads[t]).Some? && (a in BatchOf(s.threads[t]).value.todo || BatchOf(s.threads[t]).value.retry)
  }

  /** The audio waiters that a wake-up in this state does not reach. */
  ghost function Overlooked(s: State): set<nat> {
    set a | a in s.allocs && WaiterOf(s, true, a) && !s.timer && 1 in s.threads && !BeforeSnapshot(s.threads[1])
      && !InBatch(s, a, 1)
  }

  /**
   `enqueueWaitingPromotions`: the control chain gets one more promotion; audio gets one only if none is in progress.
   */
  ghost function Enqueue(s: State): (r: State)
    ensures r.allocs == s.allocs && r.ops == s.ops && r.nextA == s.nextA && r.nextO == s.nextO && Promote in r.chain
  {
    var chained := s.(chain := s.chain + [Promote], missed := Overlooked(s));
    if HasAudioWaiting(s) && 1 !in s.threads then chained.(threads := s.threads[1 := Begin(true)]) else chained
  }

  /** `scheduleWaitingPromotion` */
  ghost function ScheduleRetry(s: State): State {
    var timer := s.timer || (!s.draining && HasWaiting(s));
    s.(timer := timer, missed := if timer then {} else s.missed)
  }

  /**
   The records of a released allocation: its terminal status, and its operation closed unless it was closed before.
   */
  function Closed(s: State, a: nat, terminal: Status): (r: State)
    requires a in s.allocs
    ensures r == s.(allocs := s.allocs[a := s.allocs[a].(status := terminal)], ops := r.ops)
    ensures r.ops.Keys == s.ops.Keys
    ensures forall o :: o in s.ops && (!Open(s.ops[o]) || s.allocs[a].op != Some(o)) ==> r.ops[o] == s.ops[o]
  {
    var op := s.allocs[a].op;
    var s1 := SetStatus(s, a, terminal);
    if op.Some? && op.value in s.ops && Open(s.ops[op.value])
    then SetOp(s1, op, if terminal == Expired then TimedOut else Cancelled) else s1
  }

  /** `releaseAllocation` */
  ghost function ReleaseOne(s: State, a: nat, terminal: Status): (r: State)
    ensures r.nextA == s.nextA && r.nextO == s.nextO && r.allocs.Keys == s.allocs.Keys && r.ops.Keys == s.ops.Keys
    ensures forall b :: b in s.allocs && b != a ==> r.allocs[b] == s.allocs[b]
    ensures a in s.allocs && s.allocs[a].status in {Released, Expired} ==> r.allocs[a] == s.allocs[a]
    ensures forall o :: o in s.ops && !Open(s.ops[o]) ==> r.ops[o] == s.ops[o]
  {
    if a !in s.allocs || s.allocs[a].status in {Released, Expired} then s else Enqueue(Closed(s, a, terminal))
  }

  ghost function ReleaseAll(s: State, victims: seq<nat>): State
    decreases |victims|
  {
    if victims == [] then s else ReleaseAll(ReleaseOne(s, victims[0], Released), victims[1..])
  }

  function EndThread(s: State, t: nat): State {
    s.(threads := s.threads[t := if t == 0 then Free else Ended])
  }

  function Resume(s: State, t: nat, rest: Option<Batch>): (r: State)
    ensures r.allocs == s.allocs && r.ops == s.ops && r.nextA == s.nextA && r.nextO == s.nextO
  {
    if rest == None then EndThread(s, t) else s.(threads := s.threads[t := Looping(rest.value)])
  }

  predicate Due(s: State, a: nat)
    requires a in s.allocs
  {
    s.allocs[a].expiresAt <= s.now
  }

  // ----- requests -----

  datatype Request = Request(runtimes: set<nat>, priority: int, wait: bool, ttl: int, audio: bool, existingOnly: bool,
                             independent: bool)

  /** What a request meets: a switch hold, a transition or mutation in progress, hot runtimes, missing instances. */
  datatype Circumstance = Circumstance(hold: bool, transitioning: bool, mutating: bool, hot: bool, untracked: bool,
                                       obs: Observation)

  ghost predicate Victim(c: Config, s: State, q: Request, b: nat) {
    q.priority >= c.foreground && ConflictsWith(c, s, q.runtimes, b, true)
    && Admitted(s.allocs[b].status) && s.allocs[b].priority < q.priority
  }

  ghost predicate RejectedEarly(c: Config, s: State, q: Request, w: Circumstance) {
    (w.transitioning && !(q.wait && ConflictsWithAdmitted(c, s, q.runtimes))) || w.mutating
  }

  /** `planAllocationCapacity` on the allocations after preemption; the admitted conflict was looked up before it. */
  ghost predicate PlansToWait(c: Config, s: State, q: Request, w: Circumstance, conflicted: bool) {
    q.wait && (ConflictsWithWaiter(c, s, q.runtimes, q.priority)
               || ConflictsWithHigher(c, s, q.runtimes, q.priority)
               || (w.transitioning && conflicted)
               || (!AdmissionOk(c, s, q.runtimes, w.obs) && conflicted)
               || w.hold)
  }

  ghost predicate PlanRejects(c: Config, s: State, q: Request, w: Circumstance, conflicted: bool) {
    && (!AdmissionOk(c, s, q.runtimes, w.obs) || w.hold || ConflictsWithHigher(c, s, q.runtimes, q.priority))
    && !PlansToWait(c, s, q, w, conflicted)
  }

  function NewAllocation(s: State, q: Request, w: Circumstance, waiting: bool): Allocation {
    var status := if waiting then Waiting else if q.existingOnly && w.hot && !w.untracked then Ready else Pending;
    var slot := if status != Pending then NoSlot else if q.independent then OnThread(s.nextA + 2) else InChain;
    Allocation(status, if status == Ready then None else Some(s.nextO), q.runtimes, q.priority, s.now, s.now + q.ttl,
               q.audio, q.existingOnly, slot)
  }

  /** The allocation, and the operation it names if it is not ready yet, enter the shared maps. */
  function Stored(s: State, x: Allocation): State {
    var s1 := s.(allocs := s.allocs[s.nextA := x], nextA := s.nextA + 1);
    if x.op == None then s1 else s1.(ops := s.ops[s.nextO := Queued], nextO := s.nextO + 1)
  }

  /** A waiter enqueues a promotion, a pending allocation its startup. */
  ghost function Scheduled(s: State, a: nat): State
    requires a in s.allocs && s.allocs[a].op.Some?
  {
    var x := s.allocs[a];
    if x.status == Waiting then Enqueue(s)
    else
      match x.slot
      case OnThread(t) => s.(threads := s.threads[t := Launch(a, x.op.value)])
      case _ => s.(chain := s.chain + [Startup(a, x.op.value)])
  }

  /** `commitAllocationRequest` */
  ghost function Commit(s: State, q: Request, w: Circumstance, waiting: bool): State {
    var x := NewAllocation(s, q, w, waiting);
    if x.status == Ready then Stored(s, x) else Scheduled(Stored(s, x), s.nextA)
  }

  /** `allocate`: preempt first, then plan on the allocations that are left, then commit. */
  ghost function Create(c: Config, s: State, q: Request, w: Circumstance, victims: seq<nat>): State {
    if s.draining || RejectedEarly(c, s, q, w) then s
    else
      var conflicted := ConflictsWithAdmitted(c, s, q.runtimes);
      var s1 := ReleaseAll(s, victims);
      if PlanRejects(c, s1, q, w, conflicted) then s1
      else Commit(s1, q, w, PlansToWait(c, s1, q, w, conflicted))
  }

  // ----- promotion and startup -----

  ghost predicate WaiterOf(s: State, audio: bool, a: nat) {
    a in s.allocs && s.allocs[a].status == Waiting && s.allocs[a].audio == audio
  }

  /** `prioritizeWaitingAllocations`: higher priority, then older, then by id. */
  predicate Earlier(x: Allocation, i: nat, y: Allocation, j: nat) {
    x.priority > y.priority || (x.priority == y.priority && (x.created < y.created || (x.created == y.created && i < j)))
  }

  ghost predicate Snapshot(s: State, audio: bool, order: seq<nat>) {
    && (forall a :: a in order <==> WaiterOf(s, audio, a))
    && (forall i, j :: 0 <= i < j < |order| ==>
          order[i] in s.allocs && order[j] in s.allocs && Earlier(s.allocs[order[i]], order[i], s.allocs[order[j]], order[j]))
  }

  /** What promotion meets when it looks at a waiter. */
  datatype Look = Look(hold: bool, busy: bool, obs: Observation, hot: bool, protected: bool)

  /** `evaluateWaitingPromotion` */
  datatype Decision = Admit | Wait(retry: bool)

  ghost function Decide(c: Config, s: State, x: Allocation, look: Look): Decision {
    if look.hold || look.busy || ConflictsWithHigher(c, s, x.runtimes, x.priority) then Wait(true)
    else if AdmissionOk(c, s, x.runtimes, look.obs) then Admit
    else Wait(!ConflictsWithAdmitted(c, s, x.runtimes))
  }

  /** `runAllocationEnsure` up to its first await. */
  ghost function LaunchNow(s: State, t: nat, a: nat, o: nat, rest: Option<Batch>, protected: bool): State {
    if protected then Resume(ReleaseOne(s, a, Released), t, rest)
    else if !IsActive(s, a) then Resume(s, t, rest)
    else
      SetOp(s, Some(o), Running).(threads := s.threads[t := Starting(a, o, rest)],
                                  allocs := s.allocs[a := s.allocs[a].(slot := OnThread(t))])
  }

  /** `commitWaitingAllocationPromotion`, and the start of the startup it awaits. */
  ghost function Promoted(s: State, t: nat, a: nat, batch: Batch, look: Look): State
    requires a in s.allocs
  {
    var x := s.allocs[a];
    if x.existingOnly && look.hot then
      SetOp(SetStatus(s, a, Ready), x.op, Succeeded).(threads := s.threads[t := Looping(batch)])
    else if x.op == None || x.op.value !in s.ops then
      SetStatus(s, a, Failed).(threads := s.threads[t := Looping(batch)])
    else
      LaunchNow(SetStatus(s, a, Pending), t, a, x.op.value, Some(batch), look.protected)
  }

  /** One turn of the loop in `promoteWaitingAllocationBatch`. */
  ghost function Visited(c: Config, s: State, t: nat, batch: Batch, look: Look): State
    requires batch.todo != []
  {
    var a, rest := batch.todo[0], batch.(todo := batch.todo[1..]);
    if a !in s.allocs || s.allocs[a].status != Waiting || Due(s, a) then s.(threads := s.threads[t := Looping(rest)])
    else
      match Decide(c, s, s.allocs[a], look)
      case Wait(retry) => s.(threads := s.threads[t := Looping(rest.(retry := rest.retry || retry))])
      case Admit => Promoted(s, t, a, rest, look)
  }

  datatype Outcome = BecameReady | DeadlinePassed | Threw

  /** The end of `AllocationStartupLifecycle.run` up to the await in its finally block. */
  ghost function StartupOver(s: State, t: nat, outcome: Outcome): State
    requires t in s.threads && s.threads[t].Starting?
  {
    var a, o, rest := s.threads[t].a, s.threads[t].o, s.threads[t].rest;
    if !IsActive(s, a) then s.(threads := s.threads[t := Cleaning(rest)])
    else if outcome == BecameReady then Resume(SetOp(SetStatus(s, a, Ready), Some(o), Succeeded), t, rest)
    else
      SetOp(SetStatus(s, a, Failed), Some(o), if outcome == Threw then OpFailed else TimedOut)
        .(threads := s.threads[t := Cleaning(rest)])
  }

  datatype Step =
    | Request_(q: Request, w: Circumstance, victims: seq<nat>)
    | Release(a: nat)
    | Expire(a: nat)
    | Renew(a: nat, ttl: int)
    | Advance(to: int)
    | FireTimer
    | Prune(oldAllocs: set<nat>, oldOps: set<nat>)
    | Drain(victims: seq<nat>)
    | Dequeue(protected: bool)
    | BeginBatch(t: nat, current: bool, order: seq<nat>)
    | TickDone(t: nat, current: bool, order: seq<nat>)
    | Visit(t: nat, look: Look)
    | EndBatch(t: nat)
    | LaunchAudio(t: nat, protected: bool)
    | StartupDone(t: nat, outcome: Outcome)
    | CleanupDone(t: nat)
    | Retire(t: nat)

  ghost predicate Enabled(c: Config, s: State, e: Step) {
    match e
    case Request_(q, _, victims) => (q.independent ==> q.audio) && forall b :: b in victims <==> Victim(c, s, q, b)
    case Release(_) => true
    case Expire(a) => a in s.allocs && Due(s, a) && Active(s.allocs[a].status)
    case Renew(a, _) => !s.draining && IsActive(s, a) && !Due(s, a)
    case Advance(to) => s.now <= to
    case FireTimer => s.timer
    case Prune(xs, os) =>
      (forall a :: a in xs ==> !IsActive(s, a)) && (forall o :: o in os && o in s.ops ==> !Open(s.ops[o]))
    case Drain(victims) => !s.draining && forall b :: b in victims <==>
        b in s.allocs && s.allocs[b].status in {Waiting, Pending}
    case Dequeue(_) => 0 in s.threads && s.threads[0] == Free && s.chain != []
    case BeginBatch(t, _, order) => t in s.threads && s.threads[t].Begin? && Snapshot(s, s.threads[t].audio, order)
    case TickDone(t, _, order) => t in s.threads && s.threads[t].Ticking? && Snapshot(s, s.threads[t].audio, order)
    case Visit(t, _) => t in s.threads && s.threads[t].Looping? && s.threads[t].batch.todo != []
    case EndBatch(t) => t in s.threads && s.threads[t].Looping? && s.threads[t].batch.todo == []
    case LaunchAudio(t, _) => t in s.threads && s.threads[t].Launch?
    case StartupDone(t, _) => t in s.threads && s.threads[t].Starting?
    case CleanupDone(t) => t in s.threads && s.threads[t].Cleaning?
    case Retire(t) => t in s.threads && t != 0 && s.threads[t] == Ended
  }

  ghost function Next(c: Config, s: State, e: Step): State
    requires Enabled(c, s, e)
  {
    match e
    case Request_(q, w, victims) => Create(c, s, q, w, victims)
    case Release(a) => ReleaseOne(s, a, Released)
    case Expire(a) => ReleaseOne(s, a, Expired)
    case Renew(a, ttl) => s.(allocs := s.allocs[a := s.allocs[a].(expiresAt := s.now + ttl)])
    case Advance(to) => s.(now := to)
    case FireTimer => Enqueue(s.(timer := false))
    case Prune(xs, os) => s.(allocs := s.allocs - xs, ops := s.ops - os)
    case Drain(victims) => ReleaseAll(s.(draining := true, timer := false), victims)
    case Dequeue(protected) =>
      var task, s1 := s.chain[0], s.(chain := s.chain[1..]);
      (match task
       case Promote => s1.(threads := s.threads[0 := Begin(false)])
       case Startup(a, o) => LaunchNow(s1, 0, a, o, None, protected))
    case BeginBatch(t, current, order) =>
      if s.draining then EndThread(s, t)
      else if current then s.(threads := s.threads[t := Looping(Batch(s.threads[t].audio, order, false))])
      else s.(threads := s.threads[t := Ticking(s.threads[t].audio)])
    case TickDone(t, current, order) =>
      if current then s.(threads := s.threads[t := Looping(Batch(s.threads[t].audio, order, false))])
      else EndThread(ScheduleRetry(s), t)
    case Visit(t, look) => Visited(c, s, t, s.threads[t].batch, look)
    case EndBatch(t) => EndThread(if s.threads[t].batch.retry then ScheduleRetry(s) else s, t)
    case LaunchAudio(t, protected) => LaunchNow(s, t, s.threads[t].a, s.threads[t].o, None, protected)
    case StartupDone(t, outcome) => StartupOver(s, t, outcome)
    case CleanupDone(t) => Resume(Enqueue(s), t, s.threads[t].rest)
    case Retire(t) => s.(threads := s.threads - {t})
  }

  /** A run: any interleaving, with any inputs. */
  ghost predicate Run(c: Config, states: seq<State>, steps: seq<Step>) {
    && |states| == |steps| + 1
    && states[0] == Initial
    && forall i :: 0 <= i < |steps| ==> Enabled(c, states[i], steps[i]) && states[i + 1] == Next(c, states[i], steps[i])
  }
}
