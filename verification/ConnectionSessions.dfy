/**
 A session has at most one live connection, because its lock covers the look-up through the creation of the record.
 */
module ConnectionSessions {
  import opened AgentConnections

  /** The call is past the lock of its session. */
  predicate Inside(call: Call) {
    call.kind.Creation? && !call.phase.Queued? && !call.phase.Over?
  }

  /** The call has found no live connection and will store a new one. */
  predicate WillStore(call: Call) {
    call.kind.Creation? && !call.kind.reuse
    && (call.phase.Protecting? || call.phase.Preempting? || call.phase.Draining? || call.phase.Clear?
      || call.phase.Allocating?)
  }

  ghost predicate NoneLive(s: State, scope: nat) {
    forall r :: !Live(s, r, scope)
  }

  ghost predicate GoodCall(s: State, c: nat) {
    c in s.calls && s.calls[c].kind.Creation? ==>
      var scope := s.calls[c].kind.scope;
      && (Inside(s.calls[c]) ==> AtHead(s, c, scope))
      && (WillStore(s.calls[c]) ==> NoneLive(s, scope))
      && (s.calls[c].phase.Demanding? ==> s.calls[c].kind.reuse)
      && (s.calls[c].phase.Queued? || s.calls[c].phase.Allocating? ==> !s.calls[c].kind.reuse)
  }

  /** The calls in a line are creations of that session, each once. */
  ghost predicate GoodLine(s: State, scope: nat) {
    scope in s.lines ==>
      && (forall i :: 0 <= i < |s.lines[scope]| ==>
            s.lines[scope][i] in s.calls && s.calls[s.lines[scope][i]].kind.Creation?
            && s.calls[s.lines[scope][i]].kind.scope == scope)
      && (forall i, j :: 0 <= i < j < |s.lines[scope]| ==> s.lines[scope][i] != s.lines[scope][j])
  }

  predicate OneOf(s: State, scope: nat, r1: nat, r2: nat) {
    Live(s, r1, scope) && Live(s, r2, scope) ==> r1 == r2
  }

  ghost predicate Inv(s: State) {
    && (forall c :: GoodCall(s, c))
    && (forall scope :: GoodLine(s, scope))
    && (forall scope, r1, r2 :: OneOf(s, scope, r1, r2))
    && (forall c :: c in s.calls ==> c < s.next)
    && (forall r :: r in s.records ==> r < s.next)
  }

  lemma NoneLiveKept(s: State, s': State, scope: nat)
    requires forall r :: Live(s', r, scope) ==> Live(s, r, scope)
    requires NoneLive(s, scope)
    ensures NoneLive(s', scope)
  {
  }

  /** The same connections are live. */
  lemma SameLive(s: State, s': State)
    requires s'.records.Keys == s.records.Keys
    requires forall r :: r in s.records ==>
               s'.records[r].scope == s.records[r].scope && s'.records[r].status == s.records[r].status
    ensures forall r, scope :: Live(s', r, scope) <==> Live(s, r, scope)
    ensures forall scope :: NoneLive(s, scope) ==> NoneLive(s', scope)
  {
    assert forall r, scope :: Live(s', r, scope) <==> Live(s, r, scope);
    forall scope | NoneLive(s, scope) ensures NoneLive(s', scope) { NoneLiveKept(s, s', scope); }
  }

  /** No connection comes to life and the calls keep their places; so everything stays as it is. */
  lemma Quiet(s: State, s': State)
    requires Inv(s)
    requires s'.lines == s.lines && s'.next == s.next && s'.records.Keys <= s.records.Keys
        && s'.calls.Keys == s.calls.Keys
    requires forall r, scope :: Live(s', r, scope) ==> Live(s, r, scope)
    requires forall c :: c in s.calls ==> s'.calls[c] == s.calls[c].(finished := s'.calls[c].finished)
    ensures Inv(s')
  {
    forall scope | NoneLive(s, scope) ensures NoneLive(s', scope) { NoneLiveKept(s, s', scope); }
    forall c ensures GoodCall(s', c) { assert GoodCall(s, c); }
    forall scope ensures GoodLine(s', scope) { assert GoodLine(s, scope); }
    forall scope, r1, r2 ensures OneOf(s', scope, r1, r2) { assert OneOf(s, scope, r1, r2); }
  }

  /** One call moves to another phase and keeps its place in the line. */
  lemma Moves(s: State, s': State, c: nat)
    requires Inv(s) && c in s.calls && c in s'.calls && s'.calls == s.calls[c := s'.calls[c]]
    requires s'.lines == s.lines && s'.next == s.next && s'.records == s.records
    requires s.calls[c].kind.Request? ==> s'.calls[c].kind.Request?
    requires s.calls[c].kind.Creation? ==> s'.calls[c].kind.Creation? && s'.calls[c].kind.scope == s.calls[c].kind.scope
    requires GoodCall(s', c)
    ensures Inv(s')
  {
    SameLive(s, s');
    forall d ensures GoodCall(s', d) { assert GoodCall(s, d); }
    forall scope ensures GoodLine(s', scope) { assert GoodLine(s, scope); }
    forall scope, r1, r2 ensures OneOf(s', scope, r1, r2) { assert OneOf(s, scope, r1, r2); }
  }

  lemma FinishInv(s: State, r: nat, q: nat)
    requires Inv(s)
    ensures Inv(Finish(s, r, q))
  {
    Quiet(s, Finish(s, r, q));
  }

  lemma StatusInv(s: State, r: nat, status: Status)
    requires Inv(s) && (r in s.records && Terminal(s.records[r].status) ==> Terminal(status))
    ensures Inv(SetStatus(s, r, status))
  {
    Quiet(s, SetStatus(s, r, status));
  }

  /** A call that ends inside frees its place at the head of the line, and no other. */
  lemma EndCreationInv(s: State, c: nat)
    requires Inv(s) && c in s.calls && s.calls[c].kind.Creation?
    requires AtHead(s, c, s.calls[c].kind.scope)
    ensures Inv(EndCreation(s, c))
  {
    var scope := s.calls[c].kind.scope;
    var s' := EndCreation(s, c);
    SameLive(s, s');
    forall d ensures GoodCall(s', d) {
      assert GoodCall(s, d);
    }
    forall p ensures GoodLine(s', p) { assert GoodLine(s, p); }
    forall p, r1, r2 ensures OneOf(s', p, r1, r2) { assert OneOf(s, p, r1, r2); }
  }

  lemma FailInv(s: State, c: nat)
    requires Inv(s) && c in s.calls && (s.calls[c].kind.Creation? ==> Inside(s.calls[c]))
    ensures Inv(Fail(s, c))
  {
    assert GoodCall(s, c);
    if s.calls[c].kind.Creation? {
      EndCreationInv(s, c);
    } else {
      FinishInv(s, s.calls[c].kind.r, s.calls[c].kind.q);
      Moves(Finish(s, s.calls[c].kind.r, s.calls[c].kind.q), Fail(s, c), c);
    }
  }

  lemma BeginInv(s: State, r: nat, q: nat, counts: bool, idle: bool, victims: seq<nat>)
    requires Inv(s)
    ensures Inv(Begin(s, r, q, counts, idle, victims))
  {
    var s' := Begin(s, r, q, counts, idle, victims);
    if s' != s {
      SameLive(s, s');
      forall d ensures GoodCall(s', d) { assert GoodCall(s, d); }
      forall p ensures GoodLine(s', p) { assert GoodLine(s, p); }
      forall p, r1, r2 ensures OneOf(s', p, r1, r2) { assert OneOf(s, p, r1, r2); }
    }
  }

  lemma AskInv(s: State, scope: nat, scheduling: Scheduling)
    requires Inv(s)
    ensures Inv(Next(s, Ask(scope, scheduling)))
  {
    var s' := Next(s, Ask(scope, scheduling));
    SameLive(s, s');
    forall d ensures GoodCall(s', d) { assert GoodCall(s, d); }
    forall p ensures GoodLine(s', p) { assert GoodLine(s, p); }
    forall p, r1, r2 ensures OneOf(s', p, r1, r2) { assert OneOf(s, p, r1, r2); }
  }

  lemma EnterInv(s: State, c: nat, idle: bool)
    requires Inv(s) && Enabled(s, EnterSession(c, idle))
    ensures Inv(Enter(s, c, idle))
  {
    if s.calls[c].kind.scheduling == Background && Blocked(s, idle) {
      EndCreationInv(s, c);
    } else {
      assert GoodCall(s, c);
      if !exists r :: Live(s, r, s.calls[c].kind.scope) { assert NoneLive(s, s.calls[c].kind.scope); }
      SameLive(s, Enter(s, c, idle));
      Moves(s, Enter(s, c, idle), c);
    }
  }

  lemma StartPreemptInv(s: State, c: nat, victims: seq<nat>)
    requires Inv(s) && Enabled(s, ListVictims(c, victims))
    ensures Inv(StartPreempt(s, c, victims))
  {
    assert GoodCall(s, c);
    if s.calls[c].phase.Demanding? && s.calls[c].kind.scheduling != Exclusive {
      EndCreationInv(s, c);
    } else {
      SameLive(s, StartPreempt(s, c, victims));
      Moves(s, StartPreempt(s, c, victims), c);
    }
  }

  lemma PreemptDoneInv(s: State, c: nat, ok: bool)
    requires Inv(s) && c in s.calls && s.calls[c].phase.Preempting? && s.calls[c].phase.todo != []
    ensures Inv(PreemptDone(s, c, ok))
  {
    assert GoodCall(s, c);
    if !ok {
      FailInv(s, c);
    } else {
      var s1 := SetStatus(s, s.calls[c].phase.todo[0], Failed);
      StatusInv(s, s.calls[c].phase.todo[0], Failed);
      assert GoodCall(s1, c);
      SameLive(s1, PreemptDone(s, c, ok));
      Moves(s1, PreemptDone(s, c, ok), c);
    }
  }

  lemma DrainedInv(s: State, c: nat)
    requires Inv(s) && Enabled(s, Drained(c))
    ensures Inv(SetPhase(s, c, Clear))
  {
    assert GoodCall(s, c);
    SameLive(s, SetPhase(s, c, Clear));
    Moves(s, SetPhase(s, c, Clear), c);
  }

  lemma ProceedInv(s: State, c: nat)
    requires Inv(s) && Enabled(s, Continue(c))
    ensures Inv(Proceed(s, c))
  {
    var call := s.calls[c];
    assert GoodCall(s, c);
    if call.kind.Request? && !(call.kind.r in s.records && s.records[call.kind.r].status == Ready) {
      FailInv(s, c);
    } else if call.kind.Creation? && call.kind.reuse {
      EndCreationInv(s, c);
    } else {
      SameLive(s, Proceed(s, c));
      Moves(s, Proceed(s, c), c);
    }
  }

  /** The new record is the only live one of its session, and only the head of that line could store one. */
  lemma StoreInv(s: State, c: nat, probing: bool)
    requires Inv(s) && Enabled(s, StoreRecord(c, probing))
    ensures Inv(Store(s, c, probing))
  {
    var s' := Store(s, c, probing);
    var scope := s.calls[c].kind.scope;
    assert GoodCall(s, c) && WillStore(s.calls[c]);
    assert s.next !in s.records;
    forall p | p != scope && NoneLive(s, p) ensures NoneLive(s', p) { NoneLiveKept(s, s', p); }
    forall d ensures GoodCall(s', d) { assert GoodCall(s, d); }
    forall p ensures GoodLine(s', p) { assert GoodLine(s, p); }
    forall p, r1, r2 ensures OneOf(s', p, r1, r2) {
      assert OneOf(s, p, r1, r2);
      assert p == scope ==> !Live(s, r1, p) && !Live(s, r2, p);
    }
  }

  lemma LeaveInv(s: State, c: nat, threw: bool)
    requires Inv(s) && Enabled(s, LeaveCreation(c, threw))
    ensures Inv(Leave(s, c, threw))
  {
    var phase := s.calls[c].phase;
    assert GoodCall(s, c);
    if threw && phase.Stored? {
      StatusInv(s, phase.record, Failed);
      EndCreationInv(SetStatus(s, phase.record, Failed), c);
    } else {
      EndCreationInv(s, c);
    }
  }

  lemma PruneInv(s: State, rs: set<nat>)
    requires Inv(s) && Enabled(s, Prune(rs))
    ensures Inv(Next(s, Prune(rs)))
  {
    Quiet(s, Next(s, Prune(rs)));
  }

  lemma StepInv(s: State, e: Step)
    requires Inv(s) && Enabled(s, e)
    ensures Inv(Next(s, e))
  {
    if e.BeginRequest? { BeginInv(s, e.r, e.q, e.counts, e.idle, e.victims); }
    else if e.FinishRequest? { FinishInv(s, e.r, e.q); }
    else if e.Ask? { AskInv(s, e.scope, e.scheduling); }
    else if e.EnterSession? { EnterInv(s, e.c, e.idle); }
    else if e.ListVictims? { StartPreemptInv(s, e.c, e.victims); }
    else if e.PreemptAnswer? { PreemptDoneInv(s, e.c, e.ok); }
    else if e.Drained? { DrainedInv(s, e.c); }
    else if e.DrainTimeout? { FailInv(s, e.c); }
    else if e.Continue? { ProceedInv(s, e.c); }
    else if e.StoreRecord? { StoreInv(s, e.c, e.probing); }
    else if e.LeaveCreation? { LeaveInv(s, e.c, e.threw); }
    else if e.Lifecycle? { StatusInv(s, e.r, Changed(s.records[e.r].status, e.change)); }
    else { PruneInv(s, e.rs); }
  }

  lemma {:induction false} RunInv(states: seq<State>, steps: seq<Step>, i: nat)
    requires Run(states, steps) && i < |states|
    ensures Inv(states[i])
  {
    if i > 0 {
      RunInv(states, steps, i - 1);
      StepInv(states[i - 1], steps[i - 1]);
    }
  }

  lemma StaysEnded(s: State, e: Step, r: nat)
    requires Inv(s) && Enabled(s, e) && r in s.records && Terminal(s.records[r].status)
    ensures r in Next(s, e).records ==> Terminal(Next(s, e).records[r].status)
    ensures r !in Next(s, e).records ==> e.Prune? && s.records[r].active == map[]
  {
  }

  lemma StaysForgotten(s: State, e: Step, r: nat)
    requires Enabled(s, e) && r !in s.records && r < s.next
    ensures r !in Next(s, e).records && r < Next(s, e).next
  {
  }
}
