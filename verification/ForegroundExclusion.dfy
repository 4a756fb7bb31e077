/** Foreground-exclusive work and background-when-idle work never overlap, whatever interleaves at the awaits. */
module ForegroundExclusion {
  import opened AgentConnections

  // ----- the invariant -----

  /** The request of call `c` is still entered under its own name. */
  predicate Entered(s: State, c: nat)
    requires c in s.calls && s.calls[c].kind.Request?
  {
    var k := s.calls[c].kind;
    k.r in s.records && k.q in s.records[k.r].active && s.records[k.r].active[k.q] == Active(k.exclusive, c)
  }

  /** Foreground work whose presence keeps background requests out. */
  predicate Holds(s: State, c: nat) {
    c in s.calls && (Counted(s.calls[c]) || (s.calls[c].kind.Request? && s.calls[c].kind.exclusive && Entered(s, c)))
  }

  ghost predicate BackgroundIdle(s: State) {
    forall r :: !BackgroundActive(s, r)
  }

  ghost predicate AllAmong(s: State, victims: seq<nat>) {
    forall r :: BackgroundActive(s, r) ==> r in victims
  }

  /** How far foreground work has got, and what has become of background requests by then. */
  ghost predicate Safe(s: State, c: nat) {
    Holds(s, c) ==>
      match s.calls[c].phase
      case Preempting(_, victims) => AllAmong(s, victims)
      case Draining(victims) => AllAmong(s, victims)
      case Clear => BackgroundIdle(s)
      case Allocating => BackgroundIdle(s)
      case Stored(_) => BackgroundIdle(s)
      case Accepted => BackgroundIdle(s)
      case _ => true
  }

  /** Every entry names the call that entered it. */
  predicate GoodEntry(s: State, r: nat, q: nat) {
    r in s.records && q in s.records[r].active ==>
      var a := s.records[r].active[q];
      a.call in s.calls && s.calls[a.call].kind == Request(r, q, a.exclusive)
  }

  /** The entry of a request is there until the request is finished, and not after. */
  predicate EntryUntilFinished(s: State, c: nat) {
    c in s.calls && s.calls[c].kind.Request? ==> (Entered(s, c) <==> !s.calls[c].finished)
  }

  function CountedCalls(calls: map<nat, Call>): set<nat> {
    set c | c in calls && Counted(calls[c])
  }

  ghost predicate Entries(s: State) {
    && (forall r, q :: GoodEntry(s, r, q))
    && (forall c :: EntryUntilFinished(s, c))
    && (forall c :: c in s.calls ==> c < s.next)
    && (forall r :: r in s.records ==> r < s.next)
  }

  ghost predicate Inv(s: State) {
    && Entries(s)
    && s.creations == |CountedCalls(s.calls)|
    && forall c :: Safe(s, c)
  }

  // ----- the count -----

  lemma CountChanged(calls: map<nat, Call>, c: nat, call: Call)
    ensures |CountedCalls(calls[c := call])|
            == |CountedCalls(calls)| - (if c in calls && Counted(calls[c]) then 1 else 0) + (if Counted(call) then 1 else 0)
  {
    var before, after := CountedCalls(calls), CountedCalls(calls[c := call]);
    assert after == (before - {c}) + (if Counted(call) then {c} else {});
  }

  lemma CountMarked(calls: map<nat, Call>, r: nat, q: nat)
    ensures CountedCalls(MarkFinished(calls, r, q)) == CountedCalls(calls)
  {
  }

  // ----- frames -----

  /** No new background activity and no new hold: what was safe stays safe. */
  lemma StaysSafe(s: State, s': State, c: nat)
    requires Safe(s, c)
    requires forall r :: BackgroundActive(s', r) ==> BackgroundActive(s, r)
    requires c in s'.calls ==> c in s.calls && s'.calls[c].phase == s.calls[c].phase && (Holds(s', c) ==> Holds(s, c))
    ensures Safe(s', c)
  {
  }

  /** One call moves to another phase; the records keep their active requests. */
  lemma PhaseSafe(s: State, s': State, c: nat)
    requires Inv(s) && c in s.calls && c in s'.calls
    requires s'.calls == s.calls[c := s'.calls[c]]
    requires s'.calls[c].finished == s.calls[c].finished
    requires s'.calls[c].kind == s.calls[c].kind || (s'.calls[c].kind.Creation? && s.calls[c].kind.Creation?)
    requires s'.next == s.next && s'.records.Keys == s.records.Keys
    requires forall r :: r in s.records ==> s'.records[r].active == s.records[r].active
                                            && s'.records[r].scheduling == s.records[r].scheduling
    requires s'.creations == |CountedCalls(s'.calls)|
    requires Safe(s', c)
    ensures Inv(s')
  {
    forall r, q ensures GoodEntry(s', r, q) { assert GoodEntry(s, r, q); }
    forall d ensures EntryUntilFinished(s', d) { assert EntryUntilFinished(s, d); }
    forall d ensures Safe(s', d) {
      if d != c { StaysSafe(s, s', d); }
    }
  }

  lemma SameActivity(s: State, s': State, c: nat)
    requires forall r :: r in s'.records ==>
               (r in s.records && s'.records[r].active == s.records[r].active
                 && s'.records[r].scheduling == s.records[r].scheduling)
               || s'.records[r].active == map[]
    requires c in s.calls && c in s'.calls && s'.calls[c].kind == s.calls[c].kind
        && (Counted(s'.calls[c]) ==> Counted(s.calls[c]))
    ensures forall r :: BackgroundActive(s', r) ==> BackgroundActive(s, r)
    ensures Holds(s', c) ==> Holds(s, c)
  {
  }

  // ----- requests -----

  lemma FinishEntries(s: State, r: nat, q: nat)
    requires Entries(s)
    ensures Entries(Finish(s, r, q))
  {
    var s' := Finish(s, r, q);
    forall r', q' ensures GoodEntry(s', r', q') { assert GoodEntry(s, r', q'); }
    forall c ensures EntryUntilFinished(s', c) { assert EntryUntilFinished(s, c); }
  }

  lemma FinishInv(s: State, r: nat, q: nat)
    requires Inv(s)
    ensures Inv(Finish(s, r, q))
  {
    var s' := Finish(s, r, q);
    FinishEntries(s, r, q);
    hide Entries;
    CountMarked(s.calls, r, q);
    forall c ensures Safe(s', c) { StaysSafe(s, s', c); }
  }

  /** Foreground work in progress keeps new background requests out. */
  lemma HoldBlocks(s: State, idle: bool, c: nat)
    requires Inv(s) && Holds(s, c)
    ensures Blocked(s, idle)
  {
    if Counted(s.calls[c]) {
      assert c in CountedCalls(s.calls);
    } else {
      assert HasExclusive(s, s.calls[c].kind.r);
    }
  }

  lemma BeginEntries(s: State, r: nat, q: nat, counts: bool, idle: bool, victims: seq<nat>)
    requires Inv(s)
    ensures Entries(Begin(s, r, q, counts, idle, victims))
  {
    var s' := Begin(s, r, q, counts, idle, victims);
    if s' != s {
      forall r', q' ensures GoodEntry(s', r', q') { assert GoodEntry(s, r', q'); }
      forall c ensures EntryUntilFinished(s', c) { assert EntryUntilFinished(s, c); }
    }
  }

  lemma BeginSafe(s: State, r: nat, q: nat, counts: bool, idle: bool, victims: seq<nat>, c: nat)
    requires Inv(s) && Victims(s, victims)
    ensures Safe(Begin(s, r, q, counts, idle, victims), c)
  {
    var s' := Begin(s, r, q, counts, idle, victims);
    assert Safe(s, c);
    if s' != s {
      if s.records[r].scheduling == Background {
        if Holds(s, c) { HoldBlocks(s, idle, c); }
        assert !Holds(s', c);
      } else {
        assert forall b :: BackgroundActive(s', b) ==> BackgroundActive(s, b);
        if c == s.next {
          assert forall b :: BackgroundActive(s, b) ==> Victim(s, b);
        } else {
          StaysSafe(s, s', c);
        }
      }
    }
  }

  lemma BeginInv(s: State, r: nat, q: nat, counts: bool, idle: bool, victims: seq<nat>)
    requires Inv(s) && Victims(s, victims)
    ensures Inv(Begin(s, r, q, counts, idle, victims))
  {
    var s' := Begin(s, r, q, counts, idle, victims);
    BeginEntries(s, r, q, counts, idle, victims);
    forall c ensures Safe(s', c) { BeginSafe(s, r, q, counts, idle, victims, c); }
    if s' != s { CountChanged(s.calls, s.next, s'.calls[s.next]); }
  }

  // ----- preemption -----

  lemma EndCreationInv(s: State, c: nat)
    requires Inv(s) && c in s.calls && s.calls[c].kind.Creation?
    ensures Inv(EndCreation(s, c))
  {
    var s' := EndCreation(s, c);
    CountChanged(s.calls, c, s'.calls[c]);
    PhaseSafe(s, s', c);
  }

  lemma FailInv(s: State, c: nat)
    requires Inv(s) && c in s.calls
    ensures Inv(Fail(s, c))
  {
    if s.calls[c].kind.Creation? {
      EndCreationInv(s, c);
    } else {
      var s1 := Finish(s, s.calls[c].kind.r, s.calls[c].kind.q);
      FinishInv(s, s.calls[c].kind.r, s.calls[c].kind.q);
      CountChanged(s1.calls, c, Fail(s, c).calls[c]);
      PhaseSafe(s1, Fail(s, c), c);
    }
  }

  lemma StatusInv(s: State, r: nat, status: Status)
    requires Inv(s)
    ensures Inv(SetStatus(s, r, status))
  {
    var s' := SetStatus(s, r, status);
    forall r', q' ensures GoodEntry(s', r', q') { assert GoodEntry(s, r', q'); }
    forall c ensures EntryUntilFinished(s', c) { assert EntryUntilFinished(s, c); }
    forall c ensures Safe(s', c) { StaysSafe(s, s', c); }
  }

  lemma PreemptDoneInv(s: State, c: nat, ok: bool)
    requires Inv(s) && c in s.calls && s.calls[c].phase.Preempting? && s.calls[c].phase.todo != []
    ensures Inv(PreemptDone(s, c, ok))
  {
    if !ok {
      FailInv(s, c);
    } else {
      var s1 := SetStatus(s, s.calls[c].phase.todo[0], Failed);
      StatusInv(s, s.calls[c].phase.todo[0], Failed);
      var s' := PreemptDone(s, c, ok);
      assert Safe(s1, c);
      SameActivity(s1, s', c);
      CountChanged(s1.calls, c, s'.calls[c]);
      PhaseSafe(s1, s', c);
    }
  }

  lemma DrainedInv(s: State, c: nat)
    requires Inv(s) && Enabled(s, Drained(c))
    ensures Inv(SetPhase(s, c, Clear))
  {
    assert Safe(s, c);
    SameActivity(s, SetPhase(s, c, Clear), c);
    CountChanged(s.calls, c, SetPhase(s, c, Clear).calls[c]);
    PhaseSafe(s, SetPhase(s, c, Clear), c);
  }

  lemma ProceedInv(s: State, c: nat)
    requires Inv(s) && Enabled(s, Continue(c))
    ensures Inv(Proceed(s, c))
  {
    var call, s' := s.calls[c], Proceed(s, c);
    assert Safe(s, c);
    if call.kind.Request? && !(call.kind.r in s.records && s.records[call.kind.r].status == Ready) {
      FailInv(s, c);
    } else if call.kind.Creation? && call.kind.reuse {
      EndCreationInv(s, c);
    } else {
      SameActivity(s, s', c);
      CountChanged(s.calls, c, s'.calls[c]);
      PhaseSafe(s, s', c);
    }
  }

  // ----- creations -----

  lemma AskInv(s: State, scope: nat, scheduling: Scheduling)
    requires Inv(s)
    ensures Inv(Next(s, Ask(scope, scheduling)))
  {
    var s' := Next(s, Ask(scope, scheduling));
    CountChanged(s.calls, s.next, s'.calls[s.next]);
    forall r, q ensures GoodEntry(s', r, q) { assert GoodEntry(s, r, q); }
    forall c ensures EntryUntilFinished(s', c) { assert EntryUntilFinished(s, c); }
    forall c ensures Safe(s', c) {
      if c != s.next { StaysSafe(s, s', c); }
    }
  }

  lemma EnterInv(s: State, c: nat, idle: bool)
    requires Inv(s) && Enabled(s, EnterSession(c, idle))
    ensures Inv(Enter(s, c, idle))
  {
    var s' := Enter(s, c, idle);
    if s.calls[c].kind.scheduling == Background && Blocked(s, idle) {
      EndCreationInv(s, c);
    } else {
      CountChanged(s.calls, c, s'.calls[c]);
      assert !Counted(s.calls[c]) && s'.records == s.records;
      PhaseSafe(s, s', c);
    }
  }

  lemma StartPreemptInv(s: State, c: nat, victims: seq<nat>)
    requires Inv(s) && Enabled(s, ListVictims(c, victims))
    ensures Inv(StartPreempt(s, c, victims))
  {
    var s' := StartPreempt(s, c, victims);
    if s.calls[c].phase.Demanding? && s.calls[c].kind.scheduling != Exclusive {
      EndCreationInv(s, c);
    } else {
      assert forall r :: BackgroundActive(s', r) ==> BackgroundActive(s, r) && Victim(s, r);
      CountChanged(s.calls, c, s'.calls[c]);
      PhaseSafe(s, s', c);
    }
  }

  lemma StoreInv(s: State, c: nat, probing: bool)
    requires Inv(s) && Enabled(s, StoreRecord(c, probing))
    ensures Inv(Store(s, c, probing))
  {
    var s' := Store(s, c, probing);
    assert Safe(s, c);
    assert s.next !in s.records;
    SameActivity(s, s', c);
    CountChanged(s.calls, c, s'.calls[c]);
    forall r, q ensures GoodEntry(s', r, q) { assert GoodEntry(s, r, q); }
    forall d ensures EntryUntilFinished(s', d) { assert EntryUntilFinished(s, d); }
    forall d ensures Safe(s', d) {
      if d != c { StaysSafe(s, s', d); }
    }
  }

  lemma LeaveInv(s: State, c: nat, threw: bool)
    requires Inv(s) && Enabled(s, LeaveCreation(c, threw))
    ensures Inv(Leave(s, c, threw))
  {
    var phase := s.calls[c].phase;
    if threw && phase.Stored? {
      StatusInv(s, phase.record, Failed);
      EndCreationInv(SetStatus(s, phase.record, Failed), c);
    } else {
      EndCreationInv(s, c);
    }
  }

  lemma PruneInv(s: State, rs: set<nat>)
    requires Inv(s) && Enabled(s, Prune(rs))
    ensures Inv(Next(s, Prune(rs)))
  {
    var s' := Next(s, Prune(rs));
    forall r, q ensures GoodEntry(s', r, q) { assert GoodEntry(s, r, q); }
    forall c ensures EntryUntilFinished(s', c) { assert EntryUntilFinished(s, c); }
    forall c ensures Safe(s', c) { StaysSafe(s, s', c); }
  }

  lemma StepInv(s: State, e: Step)
    requires Inv(s) && Enabled(s, e)
    ensures Inv(Next(s, e))
  {
    if e.BeginRequest? { BeginInv(s, e.r, e.q, e.counts, e.idle, e.victims); }
    else if e.FinishRequest? { FinishInv(s, e.r, e.q); }
    else if e.Ask? { AskInv(s, e.scope, e.scheduling); }
    else if e.EnterSession? { EnterInv(s, e.c, e.idle); }
    else if e.ListVictims? { StartPreemptInv(s, e.c, e.victims); }
    else if e.PreemptAnswer? { PreemptDoneInv(s, e.c, e.ok); }
    else if e.Drained? { DrainedInv(s, e.c); }
    else if e.DrainTimeout? { FailInv(s, e.c); }
    else if e.Continue? { ProceedInv(s, e.c); }
    else if e.StoreRecord? { StoreInv(s, e.c, e.probing); }
    else if e.LeaveCreation? { LeaveInv(s, e.c, e.threw); }
    else if e.Lifecycle? { StatusInv(s, e.r, Changed(s.records[e.r].status, e.change)); }
    else { PruneInv(s, e.rs); }
  }

  lemma {:induction false} RunInv(states: seq<State>, steps: seq<Step>, i: nat)
    requires Run(states, steps) && i < |states|
    ensures Inv(states[i])
  {
    if i > 0 {
      RunInv(states, steps, i - 1);
      StepInv(states[i - 1], steps[i - 1]);
    }
  }

  // ----- requests in progress -----

  predicate InProgress(call: Call) {
    call.kind.Request? && (call.phase.Preempting? || call.phase.Draining? || call.phase.Clear?)
  }

  ghost predicate Unfinished(s: State) {
    forall c :: c in s.calls && InProgress(s.calls[c]) ==> !s.calls[c].finished
  }

  /** The gateway finishes a request only after `beginProviderRequest` has returned. */
  ghost predicate Disciplined(s: State, e: Step) {
    e.FinishRequest? ==>
      forall c :: c in s.calls && InProgress(s.calls[c]) ==> !(s.calls[c].kind.r == e.r && s.calls[c].kind.q == e.q)
  }

  /** A call that gives up takes no other call's entry with it. */
  lemma FailUnfinished(s: State, c: nat)
    requires Inv(s) && Unfinished(s) && c in s.calls && (s.calls[c].kind.Request? ==> InProgress(s.calls[c]))
    ensures Unfinished(Fail(s, c))
  {
    forall d | d in s.calls && InProgress(s.calls[d]) && d != c ensures !Fail(s, c).calls[d].finished {
      assert EntryUntilFinished(s, d) && EntryUntilFinished(s, c);
    }
  }

  lemma StepUnfinished(s: State, e: Step)
    requires Inv(s) && Unfinished(s) && Enabled(s, e) && Disciplined(s, e)
    ensures Unfinished(Next(s, e))
  {
    if e.PreemptAnswer? { FailUnfinished(s, e.c); }
    else if e.DrainTimeout? { FailUnfinished(s, e.c); }
    else if e.Continue? { FailUnfinished(s, e.c); }
  }

  // ----- who finishes a request -----

  predicate CallOf(s: State, c: nat, r: nat, q: nat) {
    c in s.calls && s.calls[c].kind.Request? && s.calls[c].kind.r == r && s.calls[c].kind.q == q
  }

  /** The step calls `finishProviderRequest` for this request, from outside or in a call of its name that gives up. */
  predicate Finishes(s: State, e: Step, r: nat, q: nat) {
    match e
    case FinishRequest(r', q') => r' == r && q' == q
    case PreemptAnswer(c, ok) => !ok && CallOf(s, c, r, q)
    case DrainTimeout(c) => CallOf(s, c, r, q)
    case Continue(c) => CallOf(s, c, r, q) && !(r in s.records && s.records[r].status == Ready)
    case _ => false
  }

  /** The call has its name, and is finished just when asked. */
  predicate MarkedWhen(s: State, s': State, c: nat, finished: bool)
    requires c in s.calls
  {
    c in s'.calls && s'.calls[c].kind == s.calls[c].kind && (s'.calls[c].finished <==> finished)
  }

  lemma FailFinished(s: State, d: nat, c: nat, r: nat, q: nat)
    requires d in s.calls && CallOf(s, c, r, q)
    ensures MarkedWhen(s, Fail(s, d), c, s.calls[c].finished || CallOf(s, d, r, q))
  {
  }

  /** A call keeps its name, and is marked as finished exactly by such a step. */
  lemma StepFinished(s: State, e: Step, c: nat, r: nat, q: nat)
    requires Enabled(s, e) && CallOf(s, c, r, q) && c < s.next
    ensures MarkedWhen(s, Next(s, e), c, s.calls[c].finished || Finishes(s, e, r, q))
  {
    hide Blocked, Victims, HasExclusive;
    match e
    case PreemptAnswer(d, ok) => FailFinished(s, d, c, r, q); hide Fail;
    case DrainTimeout(d) => FailFinished(s, d, c, r, q); hide Fail;
    case Continue(d) => FailFinished(s, d, c, r, q); hide Fail;
    case _ => OthersFinish(s, e, c, r, q);
  }

  lemma OthersFinish(s: State, e: Step, c: nat, r: nat, q: nat)
    requires Enabled(s, e) && CallOf(s, c, r, q) && c < s.next && !e.PreemptAnswer? && !e.DrainTimeout? && !e.Continue?
    ensures MarkedWhen(s, Next(s, e), c, s.calls[c].finished || Finishes(s, e, r, q))
  {
    hide Blocked, Victims, HasExclusive;
  }

  lemma EntersUnfinished(s: State, e: Step, c: nat)
    requires Enabled(s, e) && c !in s.calls && c in Next(s, e).calls
    ensures !Next(s, e).calls[c].finished
  {
    hide Blocked, Victims, HasExclusive;
  }
}
