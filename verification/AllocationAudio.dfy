/** What a wake-up does for audio waiters. */
module AllocationAudio {
  import opened Prelude
  import opened AllocationControl
  import opened AllocationWakeUps
  import Agreement = AllocationAgreement

  // ----- a promotion looks at exactly the waiters it has listed -----

  predicate InProgress(s: State) { 1 in s.threads && BatchOf(s.threads[1]).Some? }

  function BatchNow(s: State): Batch
    requires InProgress(s)
  {
    BatchOf(s.threads[1]).value
  }

  /** The audio promotion looks at the waiter. */
  predicate LooksAt(s: State, e: Step, a: nat) {
    e.Visit? && e.t == 1 && InProgress(s) && BatchNow(s).todo != [] && BatchNow(s).todo[0] == a
  }

  lemma {:induction false} ReleaseAllKeepsThread(s: State, victims: seq<nat>)
    requires 1 in s.threads
    ensures 1 in ReleaseAll(s, victims).threads && ReleaseAll(s, victims).threads[1] == s.threads[1]
    decreases |victims|
  {
    if victims != [] { ReleaseAllKeepsThread(ReleaseOne(s, victims[0], Released), victims[1..]); }
  }

  lemma CreateKeepsThread(c: Config, s: State, q: Request, w: Circumstance, victims: seq<nat>)
    requires 1 in s.threads
    ensures 1 in Create(c, s, q, w, victims).threads && Create(c, s, q, w, victims).threads[1] == s.threads[1]
  {
    ReleaseAllKeepsThread(s, victims);
    var s1 := ReleaseAll(s, victims);
    CommitKeepsThread(s1, q, w, PlansToWait(c, s1, q, w, ConflictsWithAdmitted(c, s, q.runtimes)));
    hide PlansToWait, PlanRejects, RejectedEarly, ConflictsWithAdmitted, Commit;
  }

  lemma CommitKeepsThread(s: State, q: Request, w: Circumstance, waiting: bool)
    requires 1 in s.threads
    ensures 1 in Commit(s, q, w, waiting).threads && Commit(s, q, w, waiting).threads[1] == s.threads[1]
  {
    hide HasAudioWaiting, Overlooked;
  }

  lemma LaunchBatch(s: State, t: nat, a: nat, o: nat, rest: Option<Batch>, protected: bool)
    requires 1 in s.threads && (t == 1 ==> rest.Some?)
    ensures var s' := LaunchNow(s, t, a, o, rest, protected);
            1 in s'.threads && if t == 1 then BatchOf(s'.threads[1]) == rest else s'.threads[1] == s.threads[1]
  {
  }

  lemma PromotedBatch(s: State, t: nat, a: nat, rest: Batch, look: Look)
    requires 1 in s.threads && a in s.allocs
    ensures var s' := Promoted(s, t, a, rest, look);
            1 in s'.threads && if t == 1 then BatchOf(s'.threads[1]) == Some(rest) else s'.threads[1] == s.threads[1]
  {
    var x := s.allocs[a];
    if x.op.Some? { LaunchBatch(SetStatus(s, a, Pending), t, a, x.op.value, Some(rest), look.protected); }
    hide LaunchNow;
  }

  /** One turn of a loop: on lane 1 the batch loses its head and keeps its wish for a retry. */
  lemma VisitBatch(c: Config, s: State, t: nat, look: Look)
    requires Enabled(c, s, Visit(t, look)) && InProgress(s)
    ensures var s' := Next(c, s, Visit(t, look));
            InProgress(s')
            && (if t == 1 then BatchNow(s').todo == BatchNow(s).todo[1..] && (BatchNow(s).retry ==> BatchNow(s').retry)
                else BatchNow(s') == BatchNow(s))
  {
    VisitedBatch(c, s, t, s.threads[t].batch, look);
  }

  lemma VisitedBatch(c: Config, s: State, t: nat, batch: Batch, look: Look)
    requires 1 in s.threads && batch.todo != []
    ensures var s' := Visited(c, s, t, batch, look);
            1 in s'.threads
            && (if t == 1 then BatchOf(s'.threads[1]).Some? && BatchOf(s'.threads[1]).value.todo == batch.todo[1..]
                               && (batch.retry ==> BatchOf(s'.threads[1]).value.retry)
                else s'.threads[1] == s.threads[1])
  {
    hide Decide, Promoted, Due;
    if batch.todo[0] in s.allocs { PromotedBatch(s, t, batch.todo[0], batch.(todo := batch.todo[1..]), look); }
  }

  lemma StartupBatch(s: State, t: nat, outcome: Outcome)
    requires t in s.threads && s.threads[t].Starting? && InProgress(s)
    ensures InProgress(StartupOver(s, t, outcome)) && BatchNow(StartupOver(s, t, outcome)) == BatchNow(s)
  {
  }

  /** Other steps leave the batch alone, except the one that ends it. */
  lemma OtherBatch(c: Config, s: State, e: Step)
    requires Enabled(c, s, e) && InProgress(s) && !e.Visit? && e != EndBatch(1)
    ensures InProgress(Next(c, s, e)) && BatchNow(Next(c, s, e)) == BatchNow(s)
  {
    match e
    case Request_(q, w, victims) => CreateKeepsThread(c, s, q, w, victims);
    case Drain(victims) => ReleaseAllKeepsThread(s.(draining := true, timer := false), victims);
    case Dequeue(protected) =>
      var s1 := s.(chain := s.chain[1..]);
      if s.chain[0].Startup? { LaunchBatch(s1, 0, s.chain[0].a, s.chain[0].o, None, protected); }
    case LaunchAudio(t, protected) => LaunchBatch(s, t, s.threads[t].a, s.threads[t].o, None, protected);
    case StartupDone(t, outcome) => StartupBatch(s, t, outcome);
    case CleanupDone(t) => CleanupBatch(s, t);
    case _ => PlainBatch(c, s, e);
  }

  lemma CleanupBatch(s: State, t: nat)
    requires t in s.threads && s.threads[t].Cleaning? && InProgress(s)
    ensures var s' := Resume(Enqueue(s), t, s.threads[t].rest); InProgress(s') && BatchNow(s') == BatchNow(s)
  {
    hide HasAudioWaiting, Overlooked;
  }

  lemma PlainBatch(c: Config, s: State, e: Step)
    requires Enabled(c, s, e) && InProgress(s) && !e.Visit? && e != EndBatch(1)
    requires !e.Request_? && !e.Drain? && !e.Dequeue? && !e.LaunchAudio? && !e.StartupDone? && !e.CleanupDone?
    ensures InProgress(Next(c, s, e)) && BatchNow(Next(c, s, e)) == BatchNow(s)
  {
    hide Snapshot, Overlooked, HasAudioWaiting, HasWaiting;
    if e.Release? || e.Expire? { hide SetOp, SetStatus, Due, EndThread; } else { hide ReleaseOne; }
  }

  /** The promotion is in progress from `i` on and over at `j`. */
  ghost predicate Lasts(states: seq<State>, i: nat, j: nat) {
    i < j < |states| && (forall k :: i <= k < j ==> InProgress(states[k])) && !InProgress(states[j])
  }

  ghost predicate LookedAt(states: seq<State>, steps: seq<Step>, i: nat, j: nat, a: nat)
    requires j <= |steps| && |states| == |steps| + 1
  {
    exists k :: i <= k < j && LooksAt(states[k], steps[k], a)
  }

  /**
   Between any moment of an audio promotion and its end it looks at exactly the waiters that its batch still lists, and if
   one of its looks has asked for a retry, the timer is armed at the end while anything waits.
   */
  lemma {:induction false} LooksAtWhatItListed(c: Config, states: seq<State>, steps: seq<Step>, i: nat, j: nat, a: nat)
    requires Run(c, states, steps) && Lasts(states, i, j)
    ensures LookedAt(states, steps, i, j, a) <==> a in BatchNow(states[i]).todo
    ensures BatchNow(states[i]).retry && !states[j].draining && HasWaiting(states[j]) ==> states[j].timer
    decreases j - i
  {
    var s, e := states[i], steps[i];
    var n := i + 1;
    assert Enabled(c, s, e) && states[n] == Next(c, s, e) && InProgress(s);
    if n == j {
      BatchEnds(c, s, e);
      assert !LooksAt(s, e, a);
    } else {
      if e == EndBatch(1) { EndsBatch(c, s, e); }
      assert Lasts(states, n, j);
      LooksAtWhatItListed(c, states, steps, n, j, a);
      if e.Visit? { VisitBatch(c, s, e.t, e.look); } else { OtherBatch(c, s, e); }
      LookedAtFrom(states, steps, i, j, a);
      if e.Visit? && e.t == 1 { assert BatchNow(s).todo == [BatchNow(s).todo[0]] + BatchNow(s).todo[1..]; }
    }
  }

  lemma LookedAtFrom(states: seq<State>, steps: seq<Step>, i: nat, j: nat, a: nat)
    requires i < j <= |steps| && |states| == |steps| + 1
    ensures LookedAt(states, steps, i, j, a)
            <==> LooksAt(states[i], steps[i], a) || LookedAt(states, steps, i + 1, j, a)
  {
  }

  lemma EndsBatch(c: Config, s: State, e: Step)
    requires Enabled(c, s, e) && InProgress(s) && e == EndBatch(1)
    ensures !InProgress(Next(c, s, e))
  {
  }

  lemma BatchEnds(c: Config, s: State, e: Step)
    requires Enabled(c, s, e) && InProgress(s) && !InProgress(Next(c, s, e))
    ensures e == EndBatch(1) && BatchNow(s).todo == []
    ensures BatchNow(s).retry && !Next(c, s, e).draining && HasWaiting(Next(c, s, e)) ==> Next(c, s, e).timer
  {
    if e.Visit? { VisitBatch(c, s, e.t, e.look); } else if e != EndBatch(1) { OtherBatch(c, s, e); }
  }

  // ----- which audio waiters a wake-up reaches -----

  /** Every audio waiter is either attended to or recorded as missed. */
  ghost predicate Reckoned(s: State) {
    forall a :: WaiterOf(s, true, a) ==> (Attended(s, a) <==> a !in s.missed)
  }

  lemma EnqueueReckons(s: State)
    ensures Reckoned(Enqueue(s))
  {
  }

  lemma {:induction false} ReleaseAllReckons(s: State, victims: seq<nat>, b: nat)
    ensures Reckoned(s) ==> Reckoned(ReleaseAll(s, victims))
    ensures b in s.allocs ==> b in ReleaseAll(s, victims).allocs
    ensures b in s.allocs && ReleaseAll(s, victims).allocs[b] != s.allocs[b] ==> Reckoned(ReleaseAll(s, victims))
    decreases |victims|
  {
    if victims != [] {
      var s1 := ReleaseOne(s, victims[0], Released);
      if s1 != s { EnqueueReckons(Closed(s, victims[0], Released)); }
      ReleaseAllReckons(s1, victims[1..], b);
    }
  }

  lemma CommitReckons(s: State, q: Request, w: Circumstance, waiting: bool)
    requires Agreement.Inv(s) && Reckoned(s)
    ensures Reckoned(Commit(s, q, w, waiting))
  {
    var x := NewAllocation(s, q, w, waiting);
    var s1 := Stored(s, x);
    if x.status == Waiting {
      EnqueueReckons(s1);
    } else {
      var s' := Commit(s, q, w, waiting);
      forall a | WaiterOf(s', true, a) ensures Attended(s', a) <==> a !in s'.missed {
        assert a != s.nextA && WaiterOf(s, true, a);
      }
    }
  }

  /** A step that ends the admission of an allocation reaches every audio waiter or records that it did not. */
  lemma EndReckons(c: Config, s: State, e: Step, b: nat)
    requires Agreement.Inv(s) && Lanes(s) && Enabled(c, s, e)
    requires b in s.allocs && Admitted(s.allocs[b].status) && b in Next(c, s, e).allocs
    requires !Admitted(Next(c, s, e).allocs[b].status)
    ensures Reckoned(Next(c, s, e)) || CleanupPending(Next(c, s, e))
  {
    if e.Request_? {
      CreateReckons(c, s, e.q, e.w, e.victims, b);
    } else if e.Release? || e.Expire? {
      var terminal := if e.Release? then Released else Expired;
      if e.a in s.allocs && s.allocs[e.a].status !in {Released, Expired} { EnqueueReckons(Closed(s, e.a, terminal)); }
    } else if e.Drain? {
      ReleaseAllReckons(s.(draining := true, timer := false), e.victims, b);
    } else if e.Dequeue? || e.LaunchAudio? || e.StartupDone? || e.Visit? {
      ThreadEndReckons(c, s, e, b);
    } else {
      OthersKeepStatus(c, s, e, b);
    }
  }

  lemma CreateReckons(c: Config, s: State, q: Request, w: Circumstance, victims: seq<nat>, b: nat)
    requires Agreement.Inv(s) && b in s.allocs && b in Create(c, s, q, w, victims).allocs
    requires Create(c, s, q, w, victims).allocs[b] != s.allocs[b]
    ensures Reckoned(Create(c, s, q, w, victims))
  {
    ReleaseAllReckons(s, victims, b);
    Agreement.ReleaseAllInv(s, victims);
    var s1 := ReleaseAll(s, victims);
    assert Agreement.GoodAlloc(s1, b);
    var waiting := PlansToWait(c, s1, q, w, ConflictsWithAdmitted(c, s, q.runtimes));
    CommitKeeps(s1, q, w, waiting, b);
    if Reckoned(s1) { CommitReckons(s1, q, w, waiting); }
  }

  lemma LaunchReckons(s: State, t: nat, a: nat, o: nat, b: nat)
    requires t in s.threads && t != 1 && b in s.allocs && Admitted(s.allocs[b].status)
    requires !Admitted(LaunchNow(s, t, a, o, None, true).allocs[b].status)
    ensures Reckoned(LaunchNow(s, t, a, o, None, true))
  {
    EnqueueReckons(Closed(s, a, Released));
    var s1 := ReleaseOne(s, a, Released);
    assert s1 == Enqueue(Closed(s, a, Released));
    forall b | WaiterOf(Resume(s1, t, None), true, b)
      ensures Attended(Resume(s1, t, None), b) <==> b !in Resume(s1, t, None).missed
    {
      assert WaiterOf(s1, true, b);
    }
  }

  lemma DequeueReckons(c: Config, s: State, protected: bool, b: nat)
    requires Enabled(c, s, Dequeue(protected)) && b in s.allocs && Admitted(s.allocs[b].status)
    requires b in Next(c, s, Dequeue(protected)).allocs && !Admitted(Next(c, s, Dequeue(protected)).allocs[b].status)
    ensures Reckoned(Next(c, s, Dequeue(protected)))
  {
    if s.chain[0].Startup? {
      NotProtectedKeeps(s.(chain := s.chain[1..]), 0, s.chain[0].a, s.chain[0].o, b);
      if protected { LaunchReckons(s.(chain := s.chain[1..]), 0, s.chain[0].a, s.chain[0].o, b); }
    }
    hide LaunchNow, Reckoned;
  }

  lemma LaunchAudioReckons(c: Config, s: State, t: nat, protected: bool, b: nat)
    requires Enabled(c, s, LaunchAudio(t, protected)) && t != 1 && b in s.allocs && Admitted(s.allocs[b].status)
    requires b in Next(c, s, LaunchAudio(t, protected)).allocs
        && !Admitted(Next(c, s, LaunchAudio(t, protected)).allocs[b].status)
    ensures Reckoned(Next(c, s, LaunchAudio(t, protected)))
  {
    NotProtectedKeeps(s, t, s.threads[t].a, s.threads[t].o, b);
    if protected { LaunchReckons(s, t, s.threads[t].a, s.threads[t].o, b); }
    hide LaunchNow, Reckoned;
  }

  lemma NotProtectedKeeps(s: State, t: nat, a: nat, o: nat, b: nat)
    requires b in s.allocs
    ensures b in LaunchNow(s, t, a, o, None, false).allocs
        && LaunchNow(s, t, a, o, None, false).allocs[b].status == s.allocs[b].status
  {
  }

  lemma ThreadEndReckons(c: Config, s: State, e: Step, b: nat)
    requires Lanes(s) && Enabled(c, s, e) && (e.Dequeue? || e.LaunchAudio? || e.StartupDone? || e.Visit?)
    requires b in s.allocs && Admitted(s.allocs[b].status) && b in Next(c, s, e).allocs
    requires !Admitted(Next(c, s, e).allocs[b].status)
    ensures Reckoned(Next(c, s, e)) || CleanupPending(Next(c, s, e))
  {
    if e.Dequeue? {
      DequeueReckons(c, s, e.protected, b);
    } else if e.LaunchAudio? {
      assert LaneOk(s, e.t);
      LaunchAudioReckons(c, s, e.t, e.protected, b);
    } else if e.StartupDone? {
      assert Next(c, s, e).threads[e.t].Cleaning?;
    } else {
      VisitEnqueues(c, s, e.t, e.look, b);
    }
  }

  // ----- with the timer armed nobody is missed -----

  predicate TimerReaches(s: State) { s.timer ==> s.missed == {} }

  lemma {:induction false} ReleaseAllReaches(s: State, victims: seq<nat>)
    requires TimerReaches(s)
    ensures TimerReaches(ReleaseAll(s, victims))
    decreases |victims|
  {
    if victims != [] { ReleaseAllReaches(ReleaseOne(s, victims[0], Released), victims[1..]); }
  }

  lemma CommitReaches(s: State, q: Request, w: Circumstance, waiting: bool)
    requires TimerReaches(s)
    ensures TimerReaches(Commit(s, q, w, waiting))
  {
  }

  lemma CreateReaches(c: Config, s: State, q: Request, w: Circumstance, victims: seq<nat>)
    requires TimerReaches(s)
    ensures TimerReaches(Create(c, s, q, w, victims))
  {
    ReleaseAllReaches(s, victims);
    var s1 := ReleaseAll(s, victims);
    CommitReaches(s1, q, w, PlansToWait(c, s1, q, w, ConflictsWithAdmitted(c, s, q.runtimes)));
    hide PlansToWait, PlanRejects, RejectedEarly, ConflictsWithAdmitted, Commit;
  }

  lemma LaunchReaches(s: State, t: nat, a: nat, o: nat, rest: Option<Batch>, protected: bool)
    requires TimerReaches(s)
    ensures TimerReaches(LaunchNow(s, t, a, o, rest, protected))
  {
  }

  lemma PromotedReaches(s: State, t: nat, a: nat, rest: Batch, look: Look)
    requires TimerReaches(s) && a in s.allocs
    ensures TimerReaches(Promoted(s, t, a, rest, look))
  {
    var x := s.allocs[a];
    if x.op.Some? { LaunchReaches(SetStatus(s, a, Pending), t, a, x.op.value, Some(rest), look.protected); }
    hide LaunchNow;
  }

  lemma VisitReaches(c: Config, s: State, t: nat, look: Look)
    requires TimerReaches(s) && Enabled(c, s, Visit(t, look))
    ensures TimerReaches(Next(c, s, Visit(t, look)))
  {
    var batch := s.threads[t].batch;
    if batch.todo[0] in s.allocs { PromotedReaches(s, t, batch.todo[0], batch.(todo := batch.todo[1..]), look); }
    hide Decide, Promoted, Due;
  }

  lemma StepReaches(c: Config, s: State, e: Step)
    requires TimerReaches(s) && Enabled(c, s, e)
    ensures TimerReaches(Next(c, s, e))
  {
    match e
    case Request_(q, w, victims) => CreateReaches(c, s, q, w, victims);
    case Drain(victims) => ReleaseAllReaches(s.(draining := true, timer := false), victims);
    case Visit(t, look) => VisitReaches(c, s, t, look);
    case Dequeue(protected) =>
      if s.chain[0].Startup? {
        LaunchReaches(s.(chain := s.chain[1..]), 0, s.chain[0].a, s.chain[0].o, None, protected);
      }
    case LaunchAudio(t, protected) => LaunchReaches(s, t, s.threads[t].a, s.threads[t].o, None, protected);
    case StartupDone(t, outcome) => StartupReaches(s, t, outcome);
    case _ => PlainReaches(c, s, e);
  }

  lemma StartupReaches(s: State, t: nat, outcome: Outcome)
    requires TimerReaches(s) && t in s.threads && s.threads[t].Starting?
    ensures TimerReaches(StartupOver(s, t, outcome))
  {
  }

  lemma PlainReaches(c: Config, s: State, e: Step)
    requires TimerReaches(s) && Enabled(c, s, e) && !e.Request_? && !e.Drain? && !e.Visit?
    requires !e.Dequeue? && !e.LaunchAudio? && !e.StartupDone?
    ensures TimerReaches(Next(c, s, e))
  {
    hide Snapshot, HasAudioWaiting, HasWaiting;
    if e.Release? || e.Expire? { hide SetOp, SetStatus, Due, EndThread; } else { hide ReleaseOne; }
  }

  lemma {:induction false} RunReaches(c: Config, states: seq<State>, steps: seq<Step>, i: nat)
    requires Run(c, states, steps) && i < |states|
    ensures TimerReaches(states[i])
  {
    if i > 0 {
      RunReaches(c, states, steps, i - 1);
      StepReaches(c, states[i - 1], steps[i - 1]);
    }
  }
}
