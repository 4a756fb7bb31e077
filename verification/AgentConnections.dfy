/**
 Agent connections as a protocol: provider requests and connection creations as calls that await, over shared records.

 Foreground work preempts background-when-idle connections one by one and then waits until their requests have drained.
 A creation holds the lock of its session from the look-up to its end. A step is one stretch of code between two awaits,
 a change of one record's status, or a pruning. What the model cannot see (whether a preemption succeeds, whether some
 foreground connection counts as not yet idle, which lifecycle change comes) is an input of the step.
 */
module AgentConnections {
  import opened Prelude

  datatype Status = Pending | Probing | Ready | Failed | Released | Expired

  predicate Terminal(s: Status) { s in {Failed, Released, Expired} }

  datatype Scheduling = Exclusive | Background | Ordinary

  /** An active request; the code has no field for the call that entered it, only the proofs use it. */
  datatype Active = Active(exclusive: bool, call: nat)

  datatype Record = Record(scope: nat, scheduling: Scheduling, status: Status, active: map<nat, Active>)

  datatype Kind =
    | Request(r: nat, q: nat, exclusive: bool)
    | Creation(scope: nat, scheduling: Scheduling, reuse: bool)

  datatype Phase =
    | Queued                                        // for the session lock
    | Demanding                                     // a reusable connection was found
    | Protecting                                    // about to preempt, already counted
    | Preempting(todo: seq<nat>, victims: seq<nat>)
    | Draining(victims: seq<nat>)
    | Clear                                         // preemption has succeeded
    | Allocating
    | Stored(record: nat)                           // the new record is being probed
    | Accepted
    | Over

  /** `finished` is history: the request of this call was finished, by whomever. */
  datatype Call = Call(kind: Kind, phase: Phase, finished: bool)

  datatype State = State(records: map<nat, Record>, calls: map<nat, Call>, lines: map<nat, seq<nat>>, creations: int, next: nat)

  const Initial := State(map[], map[], map[], 0, 0)

  // ----- what the code looks at -----

  predicate HasExclusive(s: State, r: nat) {
    r in s.records && exists q :: q in s.records[r].active && s.records[r].active[q].exclusive
  }

  /** `backgroundBlocked`; `idle` says whether all foreground connections are past their idle deadline. */
  ghost predicate Blocked(s: State, idle: bool) {
    s.creations > 0 || (exists r :: HasExclusive(s, r)) || !idle
  }

  predicate BackgroundActive(s: State, r: nat) {
    r in s.records && s.records[r].scheduling == Background && s.records[r].active != map[]
  }

  predicate Victim(s: State, r: nat) {
    r in s.records && s.records[r].scheduling == Background
      && (!Terminal(s.records[r].status) || s.records[r].active != map[])
  }

  /** The victims, in whatever order the records are kept. */
  ghost predicate Victims(s: State, victims: seq<nat>) {
    forall r :: r in victims <==> Victim(s, r)
  }

  predicate Live(s: State, r: nat, scope: nat) {
    r in s.records && s.records[r].scope == scope && !Terminal(s.records[r].status)
  }

  predicate AtHead(s: State, c: nat, scope: nat) {
    scope in s.lines && s.lines[scope] != [] && s.lines[scope][0] == c
  }

  /** Between `foregroundCreations += 1` and `-= 1`. */
  predicate Counted(call: Call) {
    call.kind.Creation? && call.kind.scheduling == Exclusive
    && (call.phase.Protecting? || call.phase.Preempting? || call.phase.Draining? || call.phase.Clear?
        || call.phase.Allocating? || call.phase.Stored?)
  }

  // ----- small moves -----

  function SetStatus(s: State, r: nat, status: Status): State {
    if r in s.records then s.(records := s.records[r := s.records[r].(status := status)]) else s
  }

  function SetPhase(s: State, c: nat, phase: Phase): State
    requires c in s.calls
  {
    s.(calls := s.calls[c := s.calls[c].(phase := phase)])
  }

  function MarkFinished(calls: map<nat, Call>, r: nat, q: nat): map<nat, Call> {
    map c | c in calls ::
      if calls[c].kind.Request? && calls[c].kind.r == r && calls[c].kind.q == q
      then calls[c].(finished := true) else calls[c]
  }

  /** `finishProviderRequest` */
  function Finish(s: State, r: nat, q: nat): State {
    var calls := MarkFinished(s.calls, r, q);
    if r in s.records && q in s.records[r].active
    then s.(records := s.records[r := s.records[r].(active := s.records[r].active - {q})], calls := calls)
    else s.(calls := calls)
  }

  /** A creation ends: the count and the lock are given back. */
  function EndCreation(s: State, c: nat): State
    requires c in s.calls && s.calls[c].kind.Creation?
  {
    var scope := s.calls[c].kind.scope;
    var lines := if AtHead(s, c, scope) then s.lines[scope := s.lines[scope][1..]] else s.lines;
    SetPhase(s, c, Over).(creations := if Counted(s.calls[c]) then s.creations - 1 else s.creations, lines := lines)
  }

  /** The call gives up: a request finishes itself. */
  function Fail(s: State, c: nat): State
    requires c in s.calls
  {
    if s.calls[c].kind.Creation? then EndCreation(s, c)
    else SetPhase(Finish(s, s.calls[c].kind.r, s.calls[c].kind.q), c, Over)
  }

  function AfterVictims(s: State, victims: seq<nat>): Phase {
    if exists r :: r in victims && BackgroundActive(s, r) then Draining(victims) else Clear
  }

  /** `preemptBackgroundConnections` from its list of victims on. */
  function AtVictims(s: State, victims: seq<nat>): Phase {
    if victims == [] then Clear else Preempting(victims, victims)
  }

  /** `beginProviderRequest` up to its first await, or to its end if it has none. */
  ghost function Begin(s: State, r: nat, q: nat, counts: bool, idle: bool, victims: seq<nat>): State {
    if r !in s.records || s.records[r].status != Ready || q in s.records[r].active
       || (s.records[r].scheduling == Background && Blocked(s, idle)) then s
    else
      var exclusive := counts && s.records[r].scheduling == Exclusive;
      s.(records := s.records[r := s.records[r].(active := s.records[r].active[q := Active(exclusive, s.next)])],
         calls := s.calls[s.next := Call(Request(r, q, exclusive), if exclusive then AtVictims(s, victims) else Accepted, false)],
         next := s.next + 1)
  }

  /** The look-up of a reusable connection, with the lock held. */
  ghost function Enter(s: State, c: nat, idle: bool): State
    requires c in s.calls && s.calls[c].kind.Creation?
  {
    var scope, scheduling := s.calls[c].kind.scope, s.calls[c].kind.scheduling;
    if scheduling == Background && Blocked(s, idle) then EndCreation(s, c)
    else if exists r :: Live(s, r, scope) then
      s.(calls := s.calls[c := s.calls[c].(kind := Creation(scope, scheduling, true), phase := Demanding)])
    else if scheduling == Exclusive then SetPhase(s, c, Protecting).(creations := s.creations + 1)
    else SetPhase(s, c, Allocating)
  }

  function StartPreempt(s: State, c: nat, victims: seq<nat>): State
    requires c in s.calls && s.calls[c].kind.Creation?
  {
    if s.calls[c].phase.Demanding? && s.calls[c].kind.scheduling != Exclusive then EndCreation(s, c)
    else
      SetPhase(s, c, AtVictims(s, victims))
        .(creations := if s.calls[c].phase.Demanding? then s.creations + 1 else s.creations)
  }

  function PreemptDone(s: State, c: nat, ok: bool): State
    requires c in s.calls && s.calls[c].phase.Preempting? && s.calls[c].phase.todo != []
  {
    var todo, victims := s.calls[c].phase.todo, s.calls[c].phase.victims;
    if !ok then Fail(s, c)
    else
      var s1 := SetStatus(s, todo[0], Failed);
      SetPhase(s1, c, if |todo| > 1 then Preempting(todo[1..], victims) else AfterVictims(s1, victims))
  }

  /** The continuation after a preemption that succeeded. */
  function Proceed(s: State, c: nat): State
    requires c in s.calls
  {
    if s.calls[c].kind.Request? then
      var r := s.calls[c].kind.r;
      if r in s.records && s.records[r].status == Ready then SetPhase(s, c, Accepted) else Fail(s, c)
    else if s.calls[c].kind.reuse then EndCreation(s, c)
    else SetPhase(s, c, Allocating)
  }

  function Store(s: State, c: nat, probing: bool): State
    requires c in s.calls && s.calls[c].kind.Creation?
  {
    var record := Record(s.calls[c].kind.scope, s.calls[c].kind.scheduling, if probing then Probing else Pending,
      map[]);
    SetPhase(s, c, Stored(s.next)).(records := s.records[s.next := record], next := s.next + 1)
  }

  /** A creation throws or returns at one of its awaits; a record it has stored is failed by its catch block. */
  function Leave(s: State, c: nat, threw: bool): State
    requires c in s.calls && s.calls[c].kind.Creation?
  {
    var phase := s.calls[c].phase;
    EndCreation(if threw && phase.Stored? then SetStatus(s, phase.record, Failed) else s, c)
  }

  /** Lifecycle changes of one record. */
  datatype Change =
    | Refreshed(to: Status)     // `refreshLifecycle`, `expireReadiness`, a failed probe or background start
    | Probed                    // `waitForReadiness`, `runBackground`
    | MarkedReady               // `markReady`
    | ReleaseCame               // the end of `release`, whatever the status has become meanwhile
    | IdleReleased              // `releaseIdleConnection`

  function Changed(status: Status, e: Change): Status {
    match e
    case Refreshed(to) => if Terminal(status) then status else to
    case Probed => if Terminal(status) then status else Probing
    case MarkedReady => if Terminal(status) then status else Ready
    case ReleaseCame => Released
    case IdleReleased => if status == Ready then Released else status
  }

  datatype Step =
    | BeginRequest(r: nat, q: nat, counts: bool, idle: bool, victims: seq<nat>)
    | FinishRequest(r: nat, q: nat)
    | Ask(scope: nat, scheduling: Scheduling)
    | EnterSession(c: nat, idle: bool)
    | ListVictims(c: nat, victims: seq<nat>)
    | PreemptAnswer(c: nat, ok: bool)
    | Drained(c: nat)
    | DrainTimeout(c: nat)
    | Continue(c: nat)
    | StoreRecord(c: nat, probing: bool)
    | LeaveCreation(c: nat, threw: bool)
    | Lifecycle(r: nat, change: Change)
    | Prune(rs: set<nat>)

  ghost predicate Enabled(s: State, e: Step) {
    match e
    case BeginRequest(_, _, _, _, victims) => Victims(s, victims)
    case FinishRequest(_, _) => true
    case Ask(_, _) => true
    case EnterSession(c, _) => c in s.calls && s.calls[c].kind.Creation? && s.calls[c].phase.Queued?
        && AtHead(s, c, s.calls[c].kind.scope)
    case ListVictims(c, victims) =>
      c in s.calls && s.calls[c].kind.Creation? && (s.calls[c].phase.Demanding? || s.calls[c].phase.Protecting?)
      && Victims(s, victims)
    case PreemptAnswer(c, _) => c in s.calls && s.calls[c].phase.Preempting? && s.calls[c].phase.todo != []
    case Drained(c) =>
      c in s.calls && s.calls[c].phase.Draining? && forall r :: r in s.calls[c].phase.victims ==> !BackgroundActive(s, r)
    case DrainTimeout(c) => c in s.calls && s.calls[c].phase.Draining?
    case Continue(c) => c in s.calls && s.calls[c].phase.Clear?
    case StoreRecord(c, _) => c in s.calls && s.calls[c].kind.Creation? && s.calls[c].phase.Allocating?
    case LeaveCreation(c, _) =>
      c in s.calls && s.calls[c].kind.Creation?
      && (s.calls[c].phase.Demanding? || s.calls[c].phase.Protecting? || s.calls[c].phase.Preempting?
          || s.calls[c].phase.Allocating? || s.calls[c].phase.Stored?)
    case Lifecycle(r, change) => r in s.records && (change.Refreshed? ==> change.to in {Failed, Expired})
    case Prune(rs) => forall r :: r in rs && r in s.records ==>
        Terminal(s.records[r].status) && s.records[r].active == map[]
  }

  ghost function Next(s: State, e: Step): State
    requires Enabled(s, e)
  {
    match e
    case BeginRequest(r, q, counts, idle, victims) => Begin(s, r, q, counts, idle, victims)
    case FinishRequest(r, q) => Finish(s, r, q)
    case Ask(scope, scheduling) =>
      s.(calls := s.calls[s.next := Call(Creation(scope, scheduling, false), Queued, false)],
         lines := s.lines[scope := (if scope in s.lines then s.lines[scope] else []) + [s.next]], next := s.next + 1)
    case EnterSession(c, idle) => Enter(s, c, idle)
    case ListVictims(c, victims) => StartPreempt(s, c, victims)
    case PreemptAnswer(c, ok) => PreemptDone(s, c, ok)
    case Drained(c) => SetPhase(s, c, Clear)
    case DrainTimeout(c) => Fail(s, c)
    case Continue(c) => Proceed(s, c)
    case StoreRecord(c, probing) => Store(s, c, probing)
    case LeaveCreation(c, threw) => Leave(s, c, threw)
    case Lifecycle(r, change) => SetStatus(s, r, Changed(s.records[r].status, change))
    case Prune(rs) => s.(records := s.records - rs)
  }

  ghost predicate Run(states: seq<State>, steps: seq<Step>) {
    && |states| == |steps| + 1
    && states[0] == Initial
    && forall i :: 0 <= i < |steps| ==> Enabled(states[i], steps[i]) && states[i + 1] == Next(states[i], steps[i])
  }
}
