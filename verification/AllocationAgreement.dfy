/** An allocation, its operation and its startup agree in every reachable state, whatever requests, releases, expiries and
 startups race with one another. */
module AllocationAgreement {
  import opened Prelude
  import opened AllocationControl

  /** What an operation may be while its allocation has a given status; an operation may be pruned once it is closed. */
  predicate Agrees(ops: map<nat, OpStatus>, x: Allocation) {
    match x.status
    case Waiting => x.op.Some? && x.op.value in ops && ops[x.op.value] == Queued && x.slot == NoSlot
    case Pending => x.op.Some? && x.op.value in ops && Open(ops[x.op.value])
    case Ready => x.op.Some? && x.op.value in ops ==> ops[x.op.value] == Succeeded
    case _ => x.op.Some? && x.op.value in ops ==> !Open(ops[x.op.value])
  }

  predicate GoodAlloc(s: State, a: nat) {
    a in s.allocs ==> a < s.nextA && (s.allocs[a].op.Some? ==> s.allocs[a].op.value < s.nextO) && Agrees(s.ops, s.allocs[a])
  }

  predicate DifferentOps(s: State, a: nat, b: nat) {
    a in s.allocs && b in s.allocs && a != b && s.allocs[a].op.Some? ==> s.allocs[a].op != s.allocs[b].op
  }

  /** A startup of `a` is at `slot`: if the allocation is still there, that is its operation and its only startup. */
  predicate Belongs(s: State, a: nat, o: nat, slot: Slot) {
    a < s.nextA
    && (a in s.allocs ==>
          s.allocs[a].op == Some(o) && s.allocs[a].slot == slot && s.allocs[a].status !in {Waiting, Ready})
  }

  predicate GoodThread(s: State, t: nat) {
    t in s.threads ==>
      match s.threads[t]
      case Launch(a, o) => Belongs(s, a, o, OnThread(t))
      case Starting(a, o, _) => Belongs(s, a, o, OnThread(t))
      case _ => true
  }

  predicate GoodTask(s: State, i: nat) {
    i < |s.chain| && s.chain[i].Startup? ==> Belongs(s, s.chain[i].a, s.chain[i].o, InChain)
  }

  predicate DifferentTasks(s: State, i: nat, j: nat) {
    i < j < |s.chain| && s.chain[i].Startup? && s.chain[j].Startup? ==> s.chain[i].a != s.chain[j].a
  }

  ghost predicate Records(s: State) {
    && (forall a :: GoodAlloc(s, a))
    && (forall a, b :: DifferentOps(s, a, b))
    && (forall o :: o in s.ops ==> o < s.nextO)
  }

  ghost predicate Startups(s: State) {
    && (forall t :: GoodThread(s, t))
    && (forall i :: GoodTask(s, i))
    && (forall i, j :: DifferentTasks(s, i, j))
  }

  ghost predicate Inv(s: State) {
    Records(s) && Startups(s)
  }

  /** `s'` has the allocations and operations of `s` but for one allocation and its operation. */
  ghost predicate Touches(s: State, s': State, a: nat) {
    && a in s.allocs && a in s'.allocs && s'.allocs == s.allocs[a := s'.allocs[a]]
    && s'.allocs[a].op == s.allocs[a].op
    && (s'.ops == s.ops || (s.allocs[a].op.Some? && s.allocs[a].op.value in s.ops && s.allocs[a].op.value in s'.ops
                            && s'.ops == s.ops[s.allocs[a].op.value := s'.ops[s.allocs[a].op.value]]))
    && s'.nextA == s.nextA && s'.nextO == s.nextO
  }

  lemma RecordsTouched(s: State, s': State, a: nat)
    requires Records(s) && Touches(s, s', a) && Agrees(s'.ops, s'.allocs[a])
    ensures Records(s')
  {
    assert GoodAlloc(s, a);
    forall b ensures GoodAlloc(s', b) {
      assert GoodAlloc(s, b) && DifferentOps(s, a, b);
    }
    forall b, d ensures DifferentOps(s', b, d) {
      assert DifferentOps(s, b, d);
    }
    forall o | o in s'.ops ensures o < s'.nextO {
      assert o in s.ops;
    }
  }

  /** Startups of other allocations are untouched; those of `a` stay right if `a` keeps its slot and stays startable. */
  lemma StartupsTouched(s: State, s': State, a: nat)
    requires Startups(s) && Touches(s, s', a) && s'.chain == s.chain && s'.threads == s.threads
    requires s'.allocs[a].slot == s.allocs[a].slot && s'.allocs[a].status !in {Waiting, Ready}
    ensures Startups(s')
  {
    forall t ensures GoodThread(s', t) { assert GoodThread(s, t); }
    forall i ensures GoodTask(s', i) { assert GoodTask(s, i); }
    forall i, j ensures DifferentTasks(s', i, j) { assert DifferentTasks(s, i, j); }
  }

  lemma RecordsSame(s: State, s': State)
    requires Records(s) && s'.allocs == s.allocs && s'.ops == s.ops && s'.nextA == s.nextA && s'.nextO == s.nextO
    ensures Records(s')
  {
    forall a ensures GoodAlloc(s', a) { assert GoodAlloc(s, a); }
    forall a, b ensures DifferentOps(s', a, b) { assert DifferentOps(s, a, b); }
  }

  /** The startup a thread is at, if any. */
  function StartupAt(s: State, t: nat): Option<(nat, nat)> {
    if t !in s.threads then None
    else
      match s.threads[t]
      case Launch(a, o) => Some((a, o))
      case Starting(a, o, _) => Some((a, o))
      case _ => None
  }

  /** The chain only loses its head or gains a promotion, threads only lose startups, records stay or are forgotten. */
  lemma StartupsKept(s: State, s': State)
    requires Startups(s) && s'.nextA == s.nextA
    requires s'.allocs.Keys <= s.allocs.Keys
    requires forall a :: a in s'.allocs ==> s'.allocs[a].op == s.allocs[a].op && s'.allocs[a].slot == s.allocs[a].slot
                                            && s'.allocs[a].status == s.allocs[a].status
    requires s'.chain == s.chain || s'.chain == s.chain + [Promote] || (s.chain != [] && s'.chain == s.chain[1..])
    requires forall t: nat :: StartupAt(s', t) == None || StartupAt(s', t) == StartupAt(s, t)
    ensures Startups(s')
  {
    forall t ensures GoodThread(s', t) {
      assert GoodThread(s, t) && (StartupAt(s', t) == None || StartupAt(s', t) == StartupAt(s, t));
    }
    var shift := if s'.chain == s.chain || s'.chain == s.chain + [Promote] then 0 else 1;
    forall i: nat ensures GoodTask(s', i) {
      assert GoodTask(s, i + shift);
    }
    forall i: nat, j: nat ensures DifferentTasks(s', i, j) {
      assert DifferentTasks(s, i + shift, j + shift);
    }
  }

  lemma EnqueueInv(s: State)
    requires Inv(s)
    ensures Inv(Enqueue(s))
  {
    RecordsSame(s, Enqueue(s));
    StartupsKept(s, Enqueue(s));
  }

  lemma ReleaseInv(s: State, a: nat, terminal: Status)
    requires Inv(s) && terminal in {Released, Expired}
    ensures Inv(ReleaseOne(s, a, terminal))
  {
    if a in s.allocs && s.allocs[a].status !in {Released, Expired} {
      var s1 := Closed(s, a, terminal);
      RecordsTouched(s, s1, a);
      StartupsTouched(s, s1, a);
      EnqueueInv(s1);
    }
  }

  lemma {:induction false} ReleaseAllInv(s: State, victims: seq<nat>)
    requires Inv(s)
    ensures Inv(ReleaseAll(s, victims))
    decreases |victims|
  {
    if victims != [] {
      ReleaseInv(s, victims[0], Released);
      ReleaseAllInv(ReleaseOne(s, victims[0], Released), victims[1..]);
    }
  }

  lemma SameStartups(s: State, s': State)
    requires Inv(s) && s'.allocs == s.allocs && s'.ops == s.ops && s'.nextA == s.nextA && s'.nextO == s.nextO
    requires s'.chain == s.chain || (s.chain != [] && s'.chain == s.chain[1..])
    requires forall t: nat :: StartupAt(s', t) == None || StartupAt(s', t) == StartupAt(s, t)
    ensures Inv(s')
  {
    RecordsSame(s, s');
    StartupsKept(s, s');
  }

  // ----- the steps -----

  lemma CommitInv(s: State, q: Request, w: Circumstance, waiting: bool)
    requires Inv(s)
    ensures Inv(Commit(s, q, w, waiting))
  {
    var x := NewAllocation(s, q, w, waiting);
    StoredRecords(s, x);
    StartupsExtended(s, Stored(s, x));
    if x.status != Ready { ScheduledInv(Stored(s, x), s.nextA); }
  }

  lemma StoredRecords(s: State, x: Allocation)
    requires Records(s)
    requires (x.op == None && x.status == Ready)
             || (x.op == Some(s.nextO) && (x.status == Waiting || x.status == Pending)
               && (x.status == Waiting ==> x.slot == NoSlot))
    ensures Records(Stored(s, x))
  {
    var s' := Stored(s, x);
    assert GoodAlloc(s, s.nextA);
    forall b ensures GoodAlloc(s', b) { assert GoodAlloc(s, b); }
    forall b, d ensures DifferentOps(s', b, d) { assert DifferentOps(s, b, d) && GoodAlloc(s, b) && GoodAlloc(s, d); }
  }

  ghost predicate NoStartupOf(s: State, a: nat) {
    && (forall t: nat :: StartupAt(s, t).Some? ==> StartupAt(s, t).value.0 != a)
    && (forall i :: 0 <= i < |s.chain| && s.chain[i].Startup? ==> s.chain[i].a != a)
  }

  lemma FreshHasNoStartup(s: State)
    requires Startups(s)
    ensures NoStartupOf(s, s.nextA)
  {
    forall t: nat | StartupAt(s, t).Some? ensures StartupAt(s, t).value.0 != s.nextA { assert GoodThread(s, t); }
    forall i | 0 <= i < |s.chain| && s.chain[i].Startup? ensures s.chain[i].a != s.nextA { assert GoodTask(s, i); }
  }

  /** One more allocation under a fresh id leaves every startup as it is. */
  lemma StartupsExtended(s: State, s': State)
    requires Startups(s) && s'.chain == s.chain && s'.threads == s.threads && s'.nextA == s.nextA + 1
    requires forall a :: a in s'.allocs && a != s.nextA ==> a in s.allocs && s'.allocs[a] == s.allocs[a]
    ensures Startups(s') && NoStartupOf(s', s.nextA)
  {
    FreshHasNoStartup(s);
    forall t: nat ensures GoodThread(s', t) { assert GoodThread(s, t); }
    forall t: nat | StartupAt(s', t).Some? ensures StartupAt(s', t).value.0 != s.nextA {
      assert StartupAt(s', t) == StartupAt(s, t);
    }
    forall i ensures GoodTask(s', i) { assert GoodTask(s, i); }
    forall i, j ensures DifferentTasks(s', i, j) { assert DifferentTasks(s, i, j); }
  }

  lemma ScheduledInv(s: State, a: nat)
    requires Inv(s) && a in s.allocs && s.allocs[a].op.Some? && NoStartupOf(s, a)
    requires s.allocs[a].status == Waiting || (s.allocs[a].status == Pending && s.allocs[a].slot != NoSlot)
    ensures Inv(Scheduled(s, a))
  {
    assert GoodAlloc(s, a);
    if s.allocs[a].status == Waiting {
      EnqueueInv(s);
    } else {
      RecordsSame(s, Scheduled(s, a));
      OneMoreStartup(s, Scheduled(s, a), a, s.allocs[a].op.value);
    }
  }

  /** A startup of a pending allocation joins the chain, or a thread takes it up, where its slot says. */
  lemma OneMoreStartup(s: State, s': State, a: nat, o: nat)
    requires Startups(s) && a in s.allocs && s.allocs[a].status == Pending && s.allocs[a].op == Some(o) && a < s.nextA
    requires NoStartupOf(s, a)
    requires s'.allocs == s.allocs && s'.nextA == s.nextA
    requires match s.allocs[a].slot
             case NoSlot => false
             case InChain => s'.threads == s.threads && s'.chain == s.chain + [Startup(a, o)]
             case OnThread(u) =>
               s'.chain == s.chain
               && (forall t: nat :: StartupAt(s', t) == if t == u then Some((a, o)) else StartupAt(s, t))
    ensures Startups(s')
  {
    forall t ensures GoodThread(s', t) {
      assert GoodThread(s, t);
      assert s.allocs[a].slot.OnThread? ==> StartupAt(s', t) == if t == s.allocs[a].slot.t then Some((a, o))
          else StartupAt(s, t);
    }
    forall i ensures GoodTask(s', i) { assert GoodTask(s, i); }
    forall i, j ensures DifferentTasks(s', i, j) { assert DifferentTasks(s, i, j); }
  }

  lemma RequestInv(c: Config, s: State, q: Request, w: Circumstance, victims: seq<nat>)
    requires Inv(s)
    ensures Inv(Create(c, s, q, w, victims))
  {
    ReleaseAllInv(s, victims);
    var s1 := ReleaseAll(s, victims);
    CommitInv(s1, q, w, PlansToWait(c, s1, q, w, ConflictsWithAdmitted(c, s, q.runtimes)));
  }

  lemma ResumeInv(s: State, t: nat, rest: Option<Batch>)
    requires Inv(s)
    ensures Inv(Resume(s, t, rest))
  {
    SameStartups(s, Resume(s, t, rest));
  }

  lemma StartupsElsewhere(s: State, s': State, a: nat)
    requires Startups(s) && Touches(s, s', a) && s'.chain == s.chain && s'.threads == s.threads && NoStartupOf(s, a)
    ensures Startups(s') && NoStartupOf(s', a)
  {
    forall t: nat ensures GoodThread(s', t) {
      assert GoodThread(s, t) && (StartupAt(s, t).Some? ==> StartupAt(s, t).value.0 != a);
    }
    forall t: nat | StartupAt(s', t).Some? ensures StartupAt(s', t).value.0 != a {
      assert StartupAt(s', t) == StartupAt(s, t);
    }
    forall i ensures GoodTask(s', i) { assert GoodTask(s, i); }
    forall i, j ensures DifferentTasks(s', i, j) { assert DifferentTasks(s, i, j); }
  }

  /** Thread `t` takes up the startup of `a`, which is nowhere else. */
  lemma LaunchInv(s: State, t: nat, a: nat, o: nat, rest: Option<Batch>, protected: bool)
    requires Inv(s) && a < s.nextA
    requires a in s.allocs ==> NoStartupOf(s.(threads := s.threads[t := Free]), a)
                               && s.allocs[a].op == Some(o) && s.allocs[a].status !in {Waiting, Ready}
    ensures Inv(LaunchNow(s, t, a, o, rest, protected))
  {
    if protected {
      ReleaseInv(s, a, Released);
      ResumeInv(ReleaseOne(s, a, Released), t, rest);
    } else if !IsActive(s, a) {
      ResumeInv(s, t, rest);
    } else {
      var s0 := s.(threads := s.threads[t := Free]);
      SameStartups(s, s0);
      var s1 := SetOp(s0, Some(o), Running).(allocs := s.allocs[a := s.allocs[a].(slot := OnThread(t))]);
      assert GoodAlloc(s0, a);
      RecordsTouched(s0, s1, a);
      StartupsElsewhere(s0, s1, a);
      var s' := LaunchNow(s, t, a, o, rest, protected);
      RecordsSame(s1, s');
      OneMoreStartup(s1, s', a, o);
    }
  }

  lemma HeadHasNoOtherStartup(s: State, a: nat, o: nat)
    requires Startups(s) && s.chain != [] && s.chain[0] == Startup(a, o) && a in s.allocs
    ensures NoStartupOf(s.(chain := s.chain[1..], threads := s.threads[0 := Free]), a)
  {
    assert GoodTask(s, 0);
    var s' := s.(chain := s.chain[1..], threads := s.threads[0 := Free]);
    forall t: nat | StartupAt(s', t).Some? ensures StartupAt(s', t).value.0 != a {
      assert GoodThread(s, t) && StartupAt(s', t) == StartupAt(s, t);
    }
    forall i | 0 <= i < |s'.chain| && s'.chain[i].Startup? ensures s'.chain[i].a != a {
      assert DifferentTasks(s, 0, i + 1);
    }
  }

  /** A startup on a thread is the only one of its allocation, as long as that is still there. */
  lemma ThreadHasNoOtherStartup(s: State, t: nat, a: nat)
    requires Startups(s) && StartupAt(s, t).Some? && StartupAt(s, t).value.0 == a && a in s.allocs
    ensures NoStartupOf(s.(threads := s.threads[t := Free]), a)
  {
    assert GoodThread(s, t);
    var s' := s.(threads := s.threads[t := Free]);
    forall u: nat | StartupAt(s', u).Some? ensures StartupAt(s', u).value.0 != a {
      assert GoodThread(s, u) && StartupAt(s', u) == StartupAt(s, u);
    }
    forall i | 0 <= i < |s'.chain| && s'.chain[i].Startup? ensures s'.chain[i].a != a { assert GoodTask(s, i); }
  }

  /** A waiter has no startup anywhere. */
  lemma WaiterHasNoStartup(s: State, t: nat, a: nat)
    requires Startups(s) && a in s.allocs && s.allocs[a].status == Waiting
    ensures NoStartupOf(s, a) && NoStartupOf(s.(threads := s.threads[t := Free]), a)
  {
    forall u: nat | StartupAt(s, u).Some? ensures StartupAt(s, u).value.0 != a { assert GoodThread(s, u); }
    var s' := s.(threads := s.threads[t := Free]);
    forall u: nat | StartupAt(s', u).Some? ensures StartupAt(s', u).value.0 != a {
      assert StartupAt(s', u) == StartupAt(s, u);
    }
    forall i | 0 <= i < |s.chain| && s.chain[i].Startup? ensures s.chain[i].a != a { assert GoodTask(s, i); }
  }

  lemma DequeueInv(c: Config, s: State, protected: bool)
    requires Inv(s) && Enabled(c, s, Dequeue(protected))
    ensures Inv(Next(c, s, Dequeue(protected)))
  {
    var task, s1 := s.chain[0], s.(chain := s.chain[1..]);
    SameStartups(s, s1);
    assert GoodTask(s, 0);
    match task
    case Promote => SameStartups(s1, s1.(threads := s.threads[0 := Begin(false)]));
    case Startup(a, o) =>
      if a in s.allocs { HeadHasNoOtherStartup(s, a, o); }
      LaunchInv(s1, 0, a, o, None, protected);
  }

  lemma PromotedInv(s: State, t: nat, a: nat, batch: Batch, look: Look)
    requires Inv(s) && a in s.allocs && s.allocs[a].status == Waiting && t in s.threads && s.threads[t].Looping?
    ensures Inv(Promoted(s, t, a, batch, look))
  {
    var x, s' := s.allocs[a], Promoted(s, t, a, batch, look);
    assert GoodAlloc(s, a);
    WaiterHasNoStartup(s, t, a);
    if x.existingOnly && look.hot {
      var s1 := SetOp(SetStatus(s, a, Ready), x.op, Succeeded);
      RecordsTouched(s, s1, a);
      StartupsElsewhere(s, s1, a);
      SameStartups(s1, s');
    } else {
      var s1 := SetStatus(s, a, Pending);
      RecordsTouched(s, s1, a);
      StartupsElsewhere(s, s1, a);
      StartupsElsewhere(s.(threads := s.threads[t := Free]), s1.(threads := s.threads[t := Free]), a) by {
        SameStartups(s, s.(threads := s.threads[t := Free]));
      }
      LaunchInv(s1, t, a, x.op.value, Some(batch), look.protected);
    }
  }

  /** The startup on thread `t` ends with a verdict for its allocation and operation. */
  lemma StartupFinished(s: State, t: nat, a: nat, o: nat, status: Status, verdict: OpStatus)
    requires Inv(s) && t in s.threads && StartupAt(s, t) == Some((a, o)) && IsActive(s, a)
    requires (status == Ready && verdict == Succeeded) || (status == Failed && verdict in {OpFailed, TimedOut})
    ensures Inv(SetOp(SetStatus(s.(threads := s.threads[t := Free]), a, status), Some(o), verdict))
  {
    assert GoodThread(s, t) && GoodAlloc(s, a);
    ThreadHasNoOtherStartup(s, t, a);
    var s0 := s.(threads := s.threads[t := Free]);
    SameStartups(s, s0);
    var s1 := SetOp(SetStatus(s0, a, status), Some(o), verdict);
    RecordsTouched(s0, s1, a);
    StartupsElsewhere(s0, s1, a);
  }

  lemma StartupOverInv(s: State, t: nat, outcome: Outcome)
    requires Inv(s) && t in s.threads && s.threads[t].Starting?
    ensures Inv(StartupOver(s, t, outcome))
  {
    var a, o, rest := s.threads[t].a, s.threads[t].o, s.threads[t].rest;
    if !IsActive(s, a) {
      SameStartups(s, s.(threads := s.threads[t := Cleaning(rest)]));
    } else if outcome == BecameReady {
      StartupFinished(s, t, a, o, Ready, Succeeded);
      ThreadMoves(s, t, a, o, Ready, Succeeded, if rest == None then if t == 0 then Free else Ended else Looping(rest.value));
    } else {
      var verdict := if outcome == Threw then OpFailed else TimedOut;
      StartupFinished(s, t, a, o, Failed, verdict);
      ThreadMoves(s, t, a, o, Failed, verdict, Cleaning(rest));
    }
  }

  lemma ThreadMoves(s: State, t: nat, a: nat, o: nat, status: Status, verdict: OpStatus, pc: Pc)
    requires a in s.allocs && t in s.threads && !pc.Launch? && !pc.Starting?
    requires Inv(SetOp(SetStatus(s.(threads := s.threads[t := Free]), a, status), Some(o), verdict))
    ensures Inv(SetOp(SetStatus(s, a, status), Some(o), verdict).(threads := s.threads[t := pc]))
  {
    SameStartups(SetOp(SetStatus(s.(threads := s.threads[t := Free]), a, status), Some(o), verdict),
                 SetOp(SetStatus(s, a, status), Some(o), verdict).(threads := s.threads[t := pc]));
  }

  lemma PruneInv(c: Config, s: State, xs: set<nat>, os: set<nat>)
    requires Inv(s) && Enabled(c, s, Prune(xs, os))
    ensures Inv(Next(c, s, Prune(xs, os)))
  {
    var s' := Next(c, s, Prune(xs, os));
    forall a ensures GoodAlloc(s', a) { assert GoodAlloc(s, a); }
    forall a, b ensures DifferentOps(s', a, b) { assert DifferentOps(s, a, b); }
    StartupsKept(s, s');
  }

  lemma RenewInv(c: Config, s: State, a: nat, ttl: int)
    requires Inv(s) && Enabled(c, s, Renew(a, ttl))
    ensures Inv(Next(c, s, Renew(a, ttl)))
  {
    var s' := Next(c, s, Renew(a, ttl));
    assert GoodAlloc(s, a);
    RecordsTouched(s, s', a);
    StartupsKept(s, s');
  }

  /** Steps that touch no record and start nothing. */
  predicate Quiet(e: Step) {
    e.Advance? || e.BeginBatch? || e.TickDone? || e.EndBatch? || e.Retire?
  }

  lemma QuietStepInv(c: Config, s: State, e: Step)
    requires Inv(s) && Enabled(c, s, e) && Quiet(e)
    ensures Inv(Next(c, s, e))
  {
    match e
    case Advance(to) => SameStartups(s, s.(now := to));
    case BeginBatch(t, _, _) => SameStartups(s, Next(c, s, e));
    case TickDone(t, current, order) =>
      if current { SameStartups(s, Next(c, s, e)); } else { EndThreadInv(ScheduleRetry(s), s, t); }
    case EndBatch(t) => EndThreadInv(if s.threads[t].batch.retry then ScheduleRetry(s) else s, s, t);
    case Retire(t) => SameStartups(s, s.(threads := s.threads - {t}));
  }

  lemma EndThreadInv(s': State, s: State, t: nat)
    requires Inv(s) && (s' == s || s' == ScheduleRetry(s))
    ensures Inv(EndThread(s', t))
  {
    SameStartups(s, EndThread(s', t));
  }

  lemma VisitInv(c: Config, s: State, t: nat, look: Look)
    requires Inv(s) && Enabled(c, s, Visit(t, look))
    ensures Inv(Next(c, s, Visit(t, look)))
  {
    var batch := s.threads[t].batch;
    var a := batch.todo[0];
    if a in s.allocs && s.allocs[a].status == Waiting && !Due(s, a) && Decide(c, s, s.allocs[a], look) == Admit {
      PromotedInv(s, t, a, batch.(todo := batch.todo[1..]), look);
    } else {
      SameStartups(s, Next(c, s, Visit(t, look)));
    }
  }

  lemma LaunchAudioInv(c: Config, s: State, t: nat, protected: bool)
    requires Inv(s) && Enabled(c, s, LaunchAudio(t, protected))
    ensures Inv(Next(c, s, LaunchAudio(t, protected)))
  {
    assert GoodThread(s, t);
    if s.threads[t].a in s.allocs { ThreadHasNoOtherStartup(s, t, s.threads[t].a); }
    LaunchInv(s, t, s.threads[t].a, s.threads[t].o, None, protected);
  }

  lemma StepInv(c: Config, s: State, e: Step)
    requires Inv(s) && Enabled(c, s, e)
    ensures Inv(Next(c, s, e))
  {
    if Quiet(e) {
      QuietStepInv(c, s, e);
    } else {
      match e
      case Request_(q, w, victims) => RequestInv(c, s, q, w, victims);
      case Release(a) => ReleaseInv(s, a, Released);
      case Expire(a) => ReleaseInv(s, a, Expired);
      case Renew(a, ttl) => RenewInv(c, s, a, ttl);
      case FireTimer => SameStartups(s, s.(timer := false)); EnqueueInv(s.(timer := false));
      case Prune(xs, os) => PruneInv(c, s, xs, os);
      case Drain(victims) =>
        SameStartups(s, s.(draining := true, timer := false));
        ReleaseAllInv(s.(draining := true, timer := false), victims);
      case Dequeue(protected) => DequeueInv(c, s, protected);
      case Visit(t, look) => VisitInv(c, s, t, look);
      case LaunchAudio(t, protected) => LaunchAudioInv(c, s, t, protected);
      case StartupDone(t, outcome) => StartupOverInv(s, t, outcome);
      case CleanupDone(t) => EnqueueInv(s); ResumeInv(Enqueue(s), t, s.threads[t].rest);
    }
  }

  lemma {:induction false} RunInv(c: Config, states: seq<State>, steps: seq<Step>, i: nat)
    requires Run(c, states, steps) && i < |states|
    ensures Inv(states[i])
  {
    if i > 0 {
      RunInv(c, states, steps, i - 1);
      StepInv(c, states[i - 1], steps[i - 1]);
    }
  }

  // ----- what every run keeps -----

  /** A released or expired allocation stays so until it is pruned, and a pruned id does not come back. */
  predicate SettledAlloc(s: State, s': State, a: nat) {
    && (a in s'.allocs && a < s.nextA ==> a in s.allocs)
    && (a in s.allocs && a in s'.allocs && s.allocs[a].status in {Released, Expired} ==>
      s'.allocs[a].status == s.allocs[a].status)
  }

  /** A closed operation keeps its verdict until it is pruned, and a pruned id does not come back. */
  predicate SettledOp(s: State, s': State, o: nat) {
    && (o in s'.ops && o < s.nextO ==> o in s.ops)
    && (o in s.ops && o in s'.ops && !Open(s.ops[o]) ==> s'.ops[o] == s.ops[o])
  }

  ghost predicate Settled(s: State, s': State) {
    && s.nextA <= s'.nextA && s.nextO <= s'.nextO
    && (forall a :: SettledAlloc(s, s', a))
    && (forall o :: SettledOp(s, s', o))
  }

  lemma SettledTransitive(s: State, s1: State, s2: State)
    requires Inv(s) && Settled(s, s1) && Settled(s1, s2)
    ensures Settled(s, s2)
  {
    forall a ensures SettledAlloc(s, s2, a) {
      assert SettledAlloc(s, s1, a) && SettledAlloc(s1, s2, a) && GoodAlloc(s, a);
    }
    forall o ensures SettledOp(s, s2, o) { assert SettledOp(s, s1, o) && SettledOp(s1, s2, o); }
  }

  lemma ReleaseSettled(s: State, a: nat, terminal: Status)
    requires Inv(s)
    ensures Settled(s, ReleaseOne(s, a, terminal))
  {
    var s' := ReleaseOne(s, a, terminal);
    forall b ensures SettledAlloc(s, s', b) {}
    forall o ensures SettledOp(s, s', o) {}
  }

  /** Settled speaks of the records only. */
  lemma SettledFrom(s0: State, s: State, s': State)
    requires s0.allocs == s.allocs && s0.ops == s.ops && s0.nextA == s.nextA && s0.nextO == s.nextO && Settled(s, s')
    ensures Settled(s0, s')
  {
    forall a ensures SettledAlloc(s0, s', a) { assert SettledAlloc(s, s', a); }
    forall o ensures SettledOp(s0, s', o) { assert SettledOp(s, s', o); }
  }

  lemma {:induction false} ReleaseAllSettled(s: State, victims: seq<nat>)
    requires Inv(s)
    ensures Settled(s, ReleaseAll(s, victims))
    decreases |victims|
  {
    if victims != [] {
      var s1 := ReleaseOne(s, victims[0], Released);
      ReleaseInv(s, victims[0], Released);
      ReleaseSettled(s, victims[0], Released);
      ReleaseAllSettled(s1, victims[1..]);
      SettledTransitive(s, s1, ReleaseAll(s1, victims[1..]));
    }
  }

  lemma CommitSettled(s: State, q: Request, w: Circumstance, waiting: bool)
    requires Inv(s)
    ensures Settled(s, Commit(s, q, w, waiting))
  {
    var x, s' := NewAllocation(s, q, w, waiting), Commit(s, q, w, waiting);
    assert s'.allocs == Stored(s, x).allocs && s'.ops == Stored(s, x).ops;
    forall a ensures SettledAlloc(s, s', a) { assert GoodAlloc(s, s.nextA); }
  }

  lemma RequestSettled(c: Config, s: State, q: Request, w: Circumstance, victims: seq<nat>)
    requires Inv(s)
    ensures Settled(s, Create(c, s, q, w, victims))
  {
    var s1 := ReleaseAll(s, victims);
    var waiting := PlansToWait(c, s1, q, w, ConflictsWithAdmitted(c, s, q.runtimes));
    ReleaseAllInv(s, victims);
    ReleaseAllSettled(s, victims);
    CommitSettled(s1, q, w, waiting);
    SettledTransitive(s, s1, Commit(s1, q, w, waiting));
  }

  /**
   Starting an operation that is queued closes nothing; the operation belongs to an active allocation or none is
   touched.
   */
  lemma LaunchSettled(s: State, t: nat, a: nat, o: nat, rest: Option<Batch>, protected: bool)
    requires Inv(s) && (a in s.allocs ==> s.allocs[a].op == Some(o) && s.allocs[a].status !in {Waiting, Ready})
    ensures Settled(s, LaunchNow(s, t, a, o, rest, protected))
  {
    assert GoodAlloc(s, a);
    ReleaseSettled(s, a, Released);
    var s', r := LaunchNow(s, t, a, o, rest, protected), ReleaseOne(s, a, Released);
    forall b ensures SettledAlloc(s, s', b) { assert SettledAlloc(s, r, b); }
    forall p ensures SettledOp(s, s', p) { assert SettledOp(s, r, p); }
  }

  lemma PromotedSettled(s: State, t: nat, a: nat, batch: Batch, look: Look)
    requires Inv(s) && a in s.allocs && s.allocs[a].status == Waiting && t in s.threads && s.threads[t].Looping?
    ensures Settled(s, Promoted(s, t, a, batch, look))
  {
    assert GoodAlloc(s, a);
    if !(s.allocs[a].existingOnly && look.hot) {
      var s1 := SetStatus(s, a, Pending);
      WaiterHasNoStartup(s, t, a);
      RecordsTouched(s, s1, a);
      StartupsElsewhere(s, s1, a);
      assert Settled(s, s1);
      LaunchSettled(s1, t, a, s.allocs[a].op.value, Some(batch), look.protected);
      SettledTransitive(s, s1, Promoted(s, t, a, batch, look));
    }
  }

  lemma StepSettled(c: Config, s: State, e: Step)
    requires Inv(s) && Enabled(c, s, e)
    ensures Settled(s, Next(c, s, e))
  {
    match e
    case Request_(q, w, victims) => RequestSettled(c, s, q, w, victims);
    case Release(a) => ReleaseSettled(s, a, Released);
    case Expire(a) => ReleaseSettled(s, a, Expired);
    case Drain(victims) =>
      var s0 := s.(draining := true, timer := false);
      SameStartups(s, s0);
      ReleaseAllSettled(s0, victims);
      SettledFrom(s, s0, Next(c, s, e));
    case _ => ThreadStepSettled(c, s, e);
  }

  lemma DequeueSettled(c: Config, s: State, protected: bool)
    requires Inv(s) && Enabled(c, s, Dequeue(protected))
    ensures Settled(s, Next(c, s, Dequeue(protected)))
  {
    var s1 := s.(chain := s.chain[1..]);
    assert GoodTask(s, 0);
    SameStartups(s, s1);
    if s.chain[0].Startup? {
      LaunchSettled(s1, 0, s.chain[0].a, s.chain[0].o, None, protected);
      SettledFrom(s, s1, Next(c, s, Dequeue(protected)));
    }
  }

  lemma VisitSettled(c: Config, s: State, t: nat, look: Look)
    requires Inv(s) && Enabled(c, s, Visit(t, look))
    ensures Settled(s, Next(c, s, Visit(t, look)))
  {
    var batch := s.threads[t].batch;
    var a := batch.todo[0];
    if a in s.allocs && s.allocs[a].status == Waiting && !Due(s, a) && Decide(c, s, s.allocs[a], look) == Admit {
      PromotedSettled(s, t, a, batch.(todo := batch.todo[1..]), look);
    }
  }

  lemma StartupOverSettled(s: State, t: nat, outcome: Outcome)
    requires Inv(s) && t in s.threads && s.threads[t].Starting?
    ensures Settled(s, StartupOver(s, t, outcome))
  {
    var a, o, s' := s.threads[t].a, s.threads[t].o, StartupOver(s, t, outcome);
    assert GoodThread(s, t) && GoodAlloc(s, a);
    if !IsActive(s, a) {
      SettledSame(s, s');
    } else {
      forall b ensures SettledAlloc(s, s', b) {}
      forall p ensures SettledOp(s, s', p) {}
    }
  }

  lemma SettledSame(s: State, s': State)
    requires Inv(s) && s'.allocs == s.allocs && s'.ops == s.ops && s'.nextA == s.nextA && s'.nextO == s.nextO
    ensures Settled(s, s')
  {
    forall a ensures SettledAlloc(s, s', a) {}
    forall o ensures SettledOp(s, s', o) {}
  }

  lemma ThreadStepSettled(c: Config, s: State, e: Step)
    requires Inv(s) && Enabled(c, s, e) && !e.Request_? && !e.Release? && !e.Expire? && !e.Drain?
    ensures Settled(s, Next(c, s, e))
  {
    if e.Dequeue? {
      DequeueSettled(c, s, e.protected);
    } else if e.Visit? {
      VisitSettled(c, s, e.t, e.look);
    } else if e.LaunchAudio? {
      assert GoodThread(s, e.t);
      LaunchSettled(s, e.t, s.threads[e.t].a, s.threads[e.t].o, None, e.protected);
    } else if e.StartupDone? {
      StartupOverSettled(s, e.t, e.outcome);
    } else if e.Renew? {
      RenewSettled(c, s, e.a, e.ttl);
    } else if !e.Prune? {
      KeepsRecords(c, s, e);
      SettledSame(s, Next(c, s, e));
    }
  }

  lemma KeepsRecords(c: Config, s: State, e: Step)
    requires Enabled(c, s, e)
    requires Quiet(e) || e.FireTimer? || e.CleanupDone?
    ensures var s' := Next(c, s, e);
            s'.allocs == s.allocs && s'.ops == s.ops && s'.nextA == s.nextA && s'.nextO == s.nextO
  {
    if e.FireTimer? {
      assert Next(c, s, e) == Enqueue(s.(timer := false));
    } else if e.CleanupDone? {
      assert Next(c, s, e) == Resume(Enqueue(s), e.t, s.threads[e.t].rest);
    } else if e.TickDone? {
      assert Next(c, s, e) ==
             if e.current then s.(threads := s.threads[e.t := Looping(Batch(s.threads[e.t].audio, e.order, false))])
                              else EndThread(ScheduleRetry(s), e.t);
    } else if e.EndBatch? {
      assert Next(c, s, e) == EndThread(if s.threads[e.t].batch.retry then ScheduleRetry(s) else s, e.t);
    }
  }

  lemma RenewSettled(c: Config, s: State, a: nat, ttl: int)
    requires Enabled(c, s, Renew(a, ttl))
    ensures Settled(s, Next(c, s, Renew(a, ttl)))
  {
  }

}
