/**
 Wake-ups of waiting allocations. On the control chain none is lost. The audio promotion is different: while one is in
 progress no second one is enqueued, so a wake-up that comes after it has listed its waiters is lost.
 */
module AllocationWakeUps {
  import opened Prelude
  import opened AllocationControl
  import Agreement = AllocationAgreement

  function Lane(audio: bool): nat { if audio then 1 else 0 }

  /** A promotion that has yet to list the waiters of this kind. */
  predicate PromotionAhead(s: State, audio: bool) {
    || (!audio && Promote in s.chain)
    || (Lane(audio) in s.threads && BeforeSnapshot(s.threads[Lane(audio)]))
  }

  /** Something will look at the waiter: the retry timer, a promotion ahead, or the promotion in progress. */
  predicate Attended(s: State, a: nat)
    requires a in s.allocs
  {
    s.timer || PromotionAhead(s, s.allocs[a].audio) || InBatch(s, a, Lane(s.allocs[a].audio))
  }

  /** A startup ended with its allocation not active, and has still to enqueue a promotion. */
  ghost predicate CleanupPending(s: State) {
    exists t: nat :: t in s.threads && s.threads[t].Cleaning?
  }

  ghost predicate Covered(c: Config, s: State, a: nat)
    requires a in s.allocs
  {
    || Attended(s, a)
    || CleanupPending(s)
    || ConflictsWithAdmitted(c, s, s.allocs[a].runtimes)
  }

  /** An unexpired waiter that should not be forgotten. */
  predicate Pressing(s: State, a: nat) {
    !s.draining && a in s.allocs && s.allocs[a].status == Waiting && !Due(s, a) && (s.allocs[a].audio ==> a !in s.missed)
  }

  predicate Waits(s: State, a: nat) { a in s.allocs && s.allocs[a].status == Waiting }

  /** Each thread runs promotions of its own lane only, and thread numbers of independent startups are not reused. */
  predicate LaneOk(s: State, t: nat) {
    t in s.threads ==>
      && t < s.nextA + 2
      && (s.threads[t].Begin? || s.threads[t].Ticking? ==> t <= 1 && s.threads[t].audio == (t == 1))
      && (BatchOf(s.threads[t]).Some? ==> t <= 1 && BatchOf(s.threads[t]).value.audio == (t == 1))
      && (s.threads[t].Launch? ==> t >= 2)
      && (s.threads[t].Ended? ==> t >= 1)
  }

  ghost predicate Lanes(s: State) {
    0 in s.threads && forall t: nat :: LaneOk(s, t)
  }

  ghost predicate Inv(c: Config, s: State) {
    Lanes(s) && forall a: nat :: Pressing(s, a) ==> Covered(c, s, a)
  }

  // ----- enqueueing -----

  /** After `enqueueWaitingPromotions` something will look at the waiter, unless the wake-up missed it. */
  lemma EnqueueCovers(s: State, a: nat)
    requires a in s.allocs && s.allocs[a].status == Waiting && (s.allocs[a].audio ==> a !in Enqueue(s).missed)
    ensures Attended(Enqueue(s), a)
  {
  }

  lemma EnqueueLanes(s: State)
    requires Lanes(s)
    ensures Lanes(Enqueue(s))
  {
    forall t: nat ensures LaneOk(Enqueue(s), t) { assert LaneOk(s, t); }
  }

  lemma ResumeLanes(s: State, t: nat, rest: Option<Batch>)
    requires Lanes(s) && t in s.threads && (rest.Some? ==> t <= 1 && rest.value.audio == (t == 1))
    ensures Lanes(Resume(s, t, rest))
  {
    forall u: nat ensures LaneOk(Resume(s, t, rest), u) { assert LaneOk(s, u); }
  }

  lemma ReleaseLanes(s: State, a: nat, terminal: Status)
    requires Lanes(s)
    ensures Lanes(ReleaseOne(s, a, terminal))
  {
    if a in s.allocs && s.allocs[a].status !in {Released, Expired} {
      var s1 := Closed(s, a, terminal);
      forall t: nat ensures LaneOk(s1, t) { assert LaneOk(s, t); }
      EnqueueLanes(s1);
    }
  }

  /** Whatever is released, a promotion is enqueued; so a waiter that is still there is covered. */
  lemma ReleaseCovers(c: Config, s: State, b: nat, terminal: Status, a: nat)
    requires terminal in {Released, Expired}
    requires Pressing(ReleaseOne(s, b, terminal), a)
    ensures a in s.allocs && s.allocs[a] == ReleaseOne(s, b, terminal).allocs[a]
    ensures ReleaseOne(s, b, terminal) == s || Attended(ReleaseOne(s, b, terminal), a)
  {
    if b in s.allocs && s.allocs[b].status !in {Released, Expired} {
      EnqueueCovers(Closed(s, b, terminal), a);
    }
  }

  lemma ReleaseInv(c: Config, s: State, b: nat, terminal: Status)
    requires Inv(c, s) && terminal in {Released, Expired}
    ensures Inv(c, ReleaseOne(s, b, terminal))
  {
    ReleaseLanes(s, b, terminal);
    forall a: nat | Pressing(ReleaseOne(s, b, terminal), a) ensures Covered(c, ReleaseOne(s, b, terminal), a) {
      ReleaseCovers(c, s, b, terminal, a);
    }
  }

  lemma {:induction false} ReleaseAllInv(c: Config, s: State, victims: seq<nat>)
    requires Inv(c, s)
    ensures Inv(c, ReleaseAll(s, victims))
    decreases |victims|
  {
    if victims != [] {
      ReleaseInv(c, s, victims[0], Released);
      ReleaseAllInv(c, ReleaseOne(s, victims[0], Released), victims[1..]);
    }
  }

  /**
   Nothing that covers a waiter goes away: the timer, the lanes and the cleanups are as before, admitted stay admitted.
   */
  lemma CoverKept(c: Config, s: State, s': State, a: nat)
    requires Inv(c, s) && Pressing(s, a) && a in s'.allocs
    requires s'.allocs[a].runtimes == s.allocs[a].runtimes && s'.allocs[a].audio == s.allocs[a].audio
    requires s.timer ==> s'.timer
    requires Promote in s.chain ==> Promote in s'.chain
    requires forall t: nat :: t in s.threads && (t <= 1 || s.threads[t].Cleaning?) ==>
        t in s'.threads && s'.threads[t] == s.threads[t]
    requires forall b :: b in s.allocs && Admitted(s.allocs[b].status) ==>
               b in s'.allocs && Admitted(s'.allocs[b].status) && s'.allocs[b].runtimes == s.allocs[b].runtimes
    ensures Covered(c, s', a)
  {
    if CleanupPending(s) {
      var t: nat :| t in s.threads && s.threads[t].Cleaning?;
      assert t in s'.threads && s'.threads[t].Cleaning?;
    } else if ConflictsWithAdmitted(c, s, s.allocs[a].runtimes) {
      var b :| ConflictsWith(c, s, s.allocs[a].runtimes, b, false) && Admitted(s.allocs[b].status);
      assert ConflictsWith(c, s', s'.allocs[a].runtimes, b, false) && Admitted(s'.allocs[b].status);
    }
  }

  // ----- requests -----

  lemma StoredInv(c: Config, s: State, x: Allocation)
    requires Inv(c, s) && s.nextA !in s.allocs && (s.nextA + 2) !in s.threads
    ensures Lanes(Stored(s, x)) && (s.nextA + 2) !in Stored(s, x).threads
    ensures forall a: nat :: a != s.nextA && Pressing(Stored(s, x), a) ==> Covered(c, Stored(s, x), a)
  {
    var s' := Stored(s, x);
    assert s'.threads == s.threads && s'.chain == s.chain && s'.timer == s.timer && s'.allocs == s.allocs[s.nextA := x];
    forall t: nat ensures LaneOk(s', t) { assert LaneOk(s, t); }
    forall a: nat | a != s.nextA && Pressing(s', a) ensures Covered(c, s', a) {
      assert Pressing(s, a);
      CoverKept(c, s, s', a);
    }
  }

  lemma ScheduledWaiterInv(c: Config, s: State, a: nat)
    requires Lanes(s) && a in s.allocs && s.allocs[a].status == Waiting && s.allocs[a].op.Some?
    ensures Inv(c, Scheduled(s, a))
  {
    EnqueueLanes(s);
    forall b: nat | Pressing(Scheduled(s, a), b) ensures Covered(c, Scheduled(s, a), b) { EnqueueCovers(s, b); }
  }

  lemma ScheduledStartupInv(c: Config, s: State, a: nat)
    requires Inv(c, s) && a in s.allocs && s.allocs[a].status == Pending && s.allocs[a].op.Some?
    requires a < s.nextA && (a + 2) !in s.threads && s.allocs[a].slot in {InChain, OnThread(a + 2)}
    ensures Inv(c, Scheduled(s, a))
  {
    var s' := Scheduled(s, a);
    forall t: nat ensures LaneOk(s', t) { assert LaneOk(s, t); }
    forall b: nat | Pressing(s', b) ensures Covered(c, s', b) {
      assert Pressing(s, b);
      CoverKept(c, s, s', b);
    }
  }

  lemma CommitInv(c: Config, s: State, q: Request, w: Circumstance, waiting: bool)
    requires Inv(c, s) && Agreement.Inv(s)
    ensures Inv(c, Commit(s, q, w, waiting))
  {
    var x := NewAllocation(s, q, w, waiting);
    assert Agreement.GoodAlloc(s, s.nextA) && LaneOk(s, s.nextA + 2);
    StoredInv(c, s, x);
    if x.status == Waiting {
      ScheduledWaiterInv(c, Stored(s, x), s.nextA);
    } else {
      assert !Pressing(Stored(s, x), s.nextA);
      if x.status == Pending { ScheduledStartupInv(c, Stored(s, x), s.nextA); }
    }
  }

  lemma RequestInv(c: Config, s: State, q: Request, w: Circumstance, victims: seq<nat>)
    requires Inv(c, s) && Agreement.Inv(s)
    ensures Inv(c, Create(c, s, q, w, victims))
  {
    Agreement.ReleaseAllInv(s, victims);
    ReleaseAllInv(c, s, victims);
    var s1 := ReleaseAll(s, victims);
    CommitInv(c, s1, q, w, PlansToWait(c, s1, q, w, ConflictsWithAdmitted(c, s, q.runtimes)));
  }

  // ----- threads -----

  /**
   A step that only moves thread `t` from one place with a batch (or none) to another, and may take the chain's head.
   */
  lemma ThreadMoveCovers(c: Config, s: State, s': State, t: nat, a: nat)
    requires Inv(c, s) && Pressing(s, a) && t in s.threads && t in s'.threads && !s.threads[t].Cleaning?
    requires a in s'.allocs && s'.allocs[a].runtimes == s.allocs[a].runtimes && s'.allocs[a].audio == s.allocs[a].audio
    requires s.timer ==> s'.timer
    requires PromotionAhead(s, s.allocs[a].audio) ==>
               PromotionAhead(s', s.allocs[a].audio) || s'.timer || InBatch(s', a, Lane(s.allocs[a].audio))
    requires t == Lane(s.allocs[a].audio) && InBatch(s, a, t) ==> InBatch(s', a, t) || s'.timer
    requires forall u: nat :: u in s.threads && u != t ==> u in s'.threads && s'.threads[u] == s.threads[u]
    requires ConflictsWithAdmitted(c, s, s.allocs[a].runtimes) ==> ConflictsWithAdmitted(c, s', s.allocs[a].runtimes)
    ensures Covered(c, s', a)
  {
    if CleanupPending(s) {
      var u: nat :| u in s.threads && s.threads[u].Cleaning?;
      assert u in s'.threads && s'.threads[u].Cleaning?;
    }
  }

  lemma ConflictKept(c: Config, s: State, s': State, runtimes: set<nat>)
    requires ConflictsWithAdmitted(c, s, runtimes)
    requires forall b :: b in s.allocs && Admitted(s.allocs[b].status) ==>
               b in s'.allocs && Admitted(s'.allocs[b].status) && s'.allocs[b].runtimes == s.allocs[b].runtimes
    ensures ConflictsWithAdmitted(c, s', runtimes)
  {
    var b :| ConflictsWith(c, s, runtimes, b, false) && Admitted(s.allocs[b].status);
    assert ConflictsWith(c, s', runtimes, b, false) && Admitted(s'.allocs[b].status);
  }

  lemma BeginBatchInv(c: Config, s: State, t: nat, current: bool, order: seq<nat>)
    requires Inv(c, s) && Enabled(c, s, BeginBatch(t, current, order))
    ensures Inv(c, Next(c, s, BeginBatch(t, current, order)))
  {
    var s' := Next(c, s, BeginBatch(t, current, order));
    assert LaneOk(s, t);
    forall u: nat ensures LaneOk(s', u) { assert LaneOk(s, u); }
    forall a: nat | Pressing(s', a) ensures Covered(c, s', a) {
      assert Pressing(s, a);
      if t == Lane(s.allocs[a].audio) { assert WaiterOf(s, s.threads[t].audio, a); }
      ThreadMoveCovers(c, s, s', t, a);
    }
  }

  lemma TickDoneInv(c: Config, s: State, t: nat, current: bool, order: seq<nat>)
    requires Inv(c, s) && Enabled(c, s, TickDone(t, current, order))
    ensures Inv(c, Next(c, s, TickDone(t, current, order)))
  {
    var s' := Next(c, s, TickDone(t, current, order));
    assert LaneOk(s, t);
    forall u: nat ensures LaneOk(s', u) { assert LaneOk(s, u); }
    forall a: nat | Pressing(s', a) ensures Covered(c, s', a) {
      if !s'.timer {
        if t == Lane(s.allocs[a].audio) { assert WaiterOf(s, s.threads[t].audio, a); }
        ThreadMoveCovers(c, s, s', t, a);
      }
    }
  }

  lemma EndBatchInv(c: Config, s: State, t: nat)
    requires Inv(c, s) && Enabled(c, s, EndBatch(t))
    ensures Inv(c, Next(c, s, EndBatch(t)))
  {
    var s' := Next(c, s, EndBatch(t));
    assert LaneOk(s, t);
    forall u: nat ensures LaneOk(s', u) { assert LaneOk(s, u); }
    forall a: nat | Pressing(s', a) ensures Covered(c, s', a) {
      if !s'.timer { ThreadMoveCovers(c, s, s', t, a); }
    }
  }

  lemma ResumeKeepsAttended(s: State, t: nat, rest: Option<Batch>, a: nat)
    requires t in s.threads && !BeforeSnapshot(s.threads[t]) && a in s.allocs && Attended(s, a)
    requires InBatch(s, a, t) ==> rest.Some? && (a in rest.value.todo || rest.value.retry)
    ensures Attended(Resume(s, t, rest), a)
  {
  }

  lemma CleanupDoneInv(c: Config, s: State, t: nat)
    requires Inv(c, s) && Enabled(c, s, CleanupDone(t))
    ensures Inv(c, Next(c, s, CleanupDone(t)))
  {
    var rest := s.threads[t].rest;
    assert LaneOk(s, t);
    EnqueueLanes(s);
    assert Enqueue(s).threads[t] == s.threads[t];
    ResumeLanes(Enqueue(s), t, rest);
    forall a: nat | Pressing(Resume(Enqueue(s), t, rest), a) ensures Covered(c, Resume(Enqueue(s), t, rest), a) {
      EnqueueCovers(s, a);
      ResumeKeepsAttended(Enqueue(s), t, rest, a);
    }
  }

  /** The launch of a startup on thread `t`, which may hold the rest of its promotion meanwhile. */
  lemma LaunchInv(c: Config, s: State, t: nat, a: nat, o: nat, rest: Option<Batch>, protected: bool)
    requires Lanes(s) && t in s.threads && (rest.Some? ==> t <= 1 && rest.value.audio == (t == 1))
    requires !BeforeSnapshot(s.threads[t]) && !s.threads[t].Cleaning?
    requires forall b: nat :: Pressing(s, b) && b != a ==> Covered(c, s, b)
    requires a in s.allocs ==> s.allocs[a].status != Waiting
    requires forall b: nat :: Waits(s, b) && InBatch(s, b, t) ==>
        rest.Some? && (b in rest.value.todo || rest.value.retry)
    ensures Inv(c, LaunchNow(s, t, a, o, rest, protected))
  {
    var s' := LaunchNow(s, t, a, o, rest, protected);
    LaunchLanes(s, t, a, o, rest, protected);
    forall b: nat | Pressing(s', b) ensures Covered(c, s', b) {
      LaunchCovers(c, s, t, a, o, rest, protected, b);
    }
  }

  lemma LaunchLanes(s: State, t: nat, a: nat, o: nat, rest: Option<Batch>, protected: bool)
    requires Lanes(s) && t in s.threads && (rest.Some? ==> t <= 1 && rest.value.audio == (t == 1))
    ensures Lanes(LaunchNow(s, t, a, o, rest, protected))
  {
    if protected {
      ReleaseLanes(s, a, Released);
      ResumeLanes(ReleaseOne(s, a, Released), t, rest);
    } else if IsActive(s, a) {
      forall u: nat ensures LaneOk(LaunchNow(s, t, a, o, rest, protected), u) { assert LaneOk(s, u); }
    } else {
      ResumeLanes(s, t, rest);
    }
  }

  lemma LaunchCovers(c: Config, s: State, t: nat, a: nat, o: nat, rest: Option<Batch>, protected: bool, b: nat)
    requires Lanes(s) && t in s.threads && (rest.Some? ==> t <= 1 && rest.value.audio == (t == 1))
    requires !BeforeSnapshot(s.threads[t]) && !s.threads[t].Cleaning?
    requires b != a ==> (Pressing(s, b) ==> Covered(c, s, b))
    requires a in s.allocs ==> s.allocs[a].status != Waiting
    requires Waits(s, b) && InBatch(s, b, t) ==> rest.Some? && (b in rest.value.todo || rest.value.retry)
    requires Pressing(LaunchNow(s, t, a, o, rest, protected), b)
    ensures Covered(c, LaunchNow(s, t, a, o, rest, protected), b)
  {
    if protected && ReleaseOne(s, a, Released) != s {
      ProtectedCovers(c, s, t, a, rest, b);
    } else {
      assert Pressing(s, b);
      ThreadKeepsCover(c, s, LaunchNow(s, t, a, o, rest, protected), t, b);
    }
  }

  lemma ProtectedCovers(c: Config, s: State, t: nat, a: nat, rest: Option<Batch>, b: nat)
    requires t in s.threads && !BeforeSnapshot(s.threads[t])
    requires Waits(s, b) && InBatch(s, b, t) ==> rest.Some? && (b in rest.value.todo || rest.value.retry)
    requires ReleaseOne(s, a, Released) != s && Pressing(Resume(ReleaseOne(s, a, Released), t, rest), b)
    ensures Covered(c, Resume(ReleaseOne(s, a, Released), t, rest), b)
  {
    var s1 := ReleaseOne(s, a, Released);
    assert Pressing(s1, b);
    ReleaseCovers(c, s, a, Released, b);
    assert t in s1.threads && s1.threads[t] == s.threads[t];
    ResumeKeepsAttended(s1, t, rest, b);
  }

  /** Statuses and the other threads are as before, and thread `t` still has the waiter in its batch if it had. */
  lemma ThreadKeepsCover(c: Config, s: State, s': State, t: nat, a: nat)
    requires t in s.threads && t in s'.threads && !BeforeSnapshot(s.threads[t]) && !s.threads[t].Cleaning?
    requires a in s.allocs && Covered(c, s, a)
    requires forall b :: b in s.allocs ==>
               b in s'.allocs && s'.allocs[b].status == s.allocs[b].status && s'.allocs[b].runtimes == s.allocs[b].runtimes
               && s'.allocs[b].audio == s.allocs[b].audio
    requires s'.timer == s.timer && s'.chain == s.chain
    requires forall u: nat :: u in s.threads && u != t ==> u in s'.threads && s'.threads[u] == s.threads[u]
    requires InBatch(s, a, t) ==> InBatch(s', a, t)
    ensures Covered(c, s', a)
  {
    if CleanupPending(s) {
      var u: nat :| u in s.threads && s.threads[u].Cleaning?;
      assert u in s'.threads && s'.threads[u].Cleaning?;
    } else if ConflictsWithAdmitted(c, s, s.allocs[a].runtimes) {
      ConflictKept(c, s, s', s.allocs[a].runtimes);
    }
  }

  lemma DequeueInv(c: Config, s: State, protected: bool)
    requires Inv(c, s) && Agreement.Inv(s) && Enabled(c, s, Dequeue(protected))
    ensures Inv(c, Next(c, s, Dequeue(protected)))
  {
    var s1 := s.(chain := s.chain[1..]);
    assert LaneOk(s, 0);
    if s.chain[0].Promote? {
      var s' := s1.(threads := s.threads[0 := Begin(false)]);
      forall u: nat ensures LaneOk(s', u) { assert LaneOk(s, u); }
      forall a: nat | Pressing(s', a) ensures Covered(c, s', a) {
        assert Pressing(s, a);
        ThreadMoveCovers(c, s, s', 0, a);
      }
    } else {
      assert Agreement.GoodTask(s, 0);
      forall u: nat ensures LaneOk(s1, u) { assert LaneOk(s, u); }
      forall a: nat | Pressing(s1, a) ensures Covered(c, s1, a) {
        assert Pressing(s, a);
        CoverKept(c, s, s1, a);
      }
      LaunchInv(c, s1, 0, s.chain[0].a, s.chain[0].o, None, protected);
    }
  }

  /** One waiter becomes something else; the others are covered as before. */
  lemma OthersCovered(c: Config, s: State, a: nat, status: Status)
    requires Inv(c, s) && a in s.allocs && s.allocs[a].status == Waiting
    ensures Lanes(SetStatus(s, a, status))
    ensures forall b: nat :: b != a && Pressing(SetStatus(s, a, status), b) ==> Covered(c, SetStatus(s, a, status), b)
  {
    var s' := SetStatus(s, a, status);
    forall u: nat ensures LaneOk(s', u) { assert LaneOk(s, u); }
    forall b: nat | b != a && Pressing(s', b) ensures Covered(c, s', b) {
      assert Pressing(s, b);
      CoverKept(c, s, s', b);
    }
  }

  /** The loop goes on with the rest of its batch, one waiter having been dealt with. */
  lemma LoopGoesOn(c: Config, s: State, s': State, t: nat, rest: Batch, a: nat)
    requires Lanes(s) && t in s.threads && s.threads[t].Looping?
    requires s.threads[t].batch.todo != [] && s.threads[t].batch.todo[0] == a
    requires rest.todo == s.threads[t].batch.todo[1..] && rest.audio == s.threads[t].batch.audio
    requires s.threads[t].batch.retry ==> rest.retry
    requires s' == s.(ops := s'.ops, threads := s.threads[t := Looping(rest)])
    requires forall b: nat :: Pressing(s, b) && b != a ==> Covered(c, s, b)
    requires Pressing(s, a) ==> Covered(c, s', a)
    ensures Inv(c, s')
  {
    assert LaneOk(s, t);
    forall u: nat ensures LaneOk(s', u) { assert LaneOk(s, u); }
    forall b: nat | Pressing(s', b) ensures Covered(c, s', b) {
      assert Pressing(s, b);
      if b != a { ThreadKeepsCover(c, s, s', t, b); }
    }
  }

  /** A waiter that is told to wait either has a retry coming or conflicts with an admitted allocation. */
  lemma WaitCovers(c: Config, s: State, s': State, t: nat, rest: Batch, a: nat, look: Look)
    requires Inv(c, s) && t in s.threads && s.threads[t].Looping? && Pressing(s, a)
    requires Decide(c, s, s.allocs[a], look).Wait?
    requires Decide(c, s, s.allocs[a], look).retry ==> rest.retry
    requires s' == s.(threads := s.threads[t := Looping(rest)])
    ensures Covered(c, s', a)
  {
    if !Decide(c, s, s.allocs[a], look).retry {
      ConflictKept(c, s, s', s.allocs[a].runtimes);
    } else {
      ThreadMoveCovers(c, s, s', t, a);
    }
  }

  lemma PromotedInv(c: Config, s: State, t: nat, rest: Batch, a: nat, look: Look)
    requires Inv(c, s) && t in s.threads && s.threads[t].Looping? && s.threads[t].batch.todo != []
    requires s.threads[t].batch.todo[0] == a && rest == s.threads[t].batch.(todo := s.threads[t].batch.todo[1..])
    requires a in s.allocs && s.allocs[a].status == Waiting
    ensures Inv(c, Promoted(s, t, a, rest, look))
  {
    var x := s.allocs[a];
    hide Inv;
    if x.existingOnly && look.hot {
      PromotedAtOnceInv(c, s, Promoted(s, t, a, rest, look), t, rest, a, Ready);
    } else if x.op == None || x.op.value !in s.ops {
      PromotedAtOnceInv(c, s, Promoted(s, t, a, rest, look), t, rest, a, Failed);
    } else {
      PromotedLaunchInv(c, s, t, rest, a, x.op.value, look.protected);
    }
  }

  lemma PromotedAtOnceInv(c: Config, s: State, s': State, t: nat, rest: Batch, a: nat, status: Status)
    requires Inv(c, s) && t in s.threads && s.threads[t].Looping? && s.threads[t].batch.todo != []
    requires s.threads[t].batch.todo[0] == a && rest == s.threads[t].batch.(todo := s.threads[t].batch.todo[1..])
    requires a in s.allocs && s.allocs[a].status == Waiting && status != Waiting
    requires s' == SetStatus(s, a, status).(ops := s'.ops, threads := s.threads[t := Looping(rest)])
    ensures Inv(c, s')
  {
    OthersCovered(c, s, a, status);
    LoopGoesOn(c, SetStatus(s, a, status), s', t, rest, a);
  }

  lemma PromotedLaunchInv(c: Config, s: State, t: nat, rest: Batch, a: nat, o: nat, protected: bool)
    requires Inv(c, s) && t in s.threads && s.threads[t].Looping? && s.threads[t].batch.todo != []
    requires s.threads[t].batch.todo[0] == a && rest == s.threads[t].batch.(todo := s.threads[t].batch.todo[1..])
    requires a in s.allocs && s.allocs[a].status == Waiting
    ensures Inv(c, LaunchNow(SetStatus(s, a, Pending), t, a, o, Some(rest), protected))
  {
    assert LaneOk(s, t);
    OthersCovered(c, s, a, Pending);
    var s1 := SetStatus(s, a, Pending);
    forall b: nat | Waits(s1, b) && InBatch(s1, b, t) ensures b in rest.todo || rest.retry {
      assert b != a;
    }
    LaunchInv(c, s1, t, a, o, Some(rest), protected);
  }

  lemma VisitInv(c: Config, s: State, t: nat, look: Look)
    requires Inv(c, s) && Enabled(c, s, Visit(t, look))
    ensures Inv(c, Next(c, s, Visit(t, look)))
  {
    var batch := s.threads[t].batch;
    var a, rest := batch.todo[0], batch.(todo := batch.todo[1..]);
    var s' := Next(c, s, Visit(t, look));
    if a !in s.allocs || s.allocs[a].status != Waiting || Due(s, a) {
      LoopGoesOn(c, s, s', t, rest, a);
    } else if Decide(c, s, s.allocs[a], look).Wait? {
      var rest' := rest.(retry := rest.retry || Decide(c, s, s.allocs[a], look).retry);
      if Pressing(s, a) { WaitCovers(c, s, s', t, rest', a, look); }
      LoopGoesOn(c, s, s', t, rest', a);
    } else {
      PromotedInv(c, s, t, rest, a, look);
    }
  }

  lemma LaunchAudioInv(c: Config, s: State, t: nat, protected: bool)
    requires Inv(c, s) && Agreement.Inv(s) && Enabled(c, s, LaunchAudio(t, protected))
    ensures Inv(c, Next(c, s, LaunchAudio(t, protected)))
  {
    assert Agreement.GoodThread(s, t) && LaneOk(s, t);
    LaunchInv(c, s, t, s.threads[t].a, s.threads[t].o, None, protected);
  }

  lemma StartupDoneInv(c: Config, s: State, t: nat, outcome: Outcome)
    requires Inv(c, s) && Agreement.Inv(s) && Enabled(c, s, StartupDone(t, outcome))
    ensures Inv(c, Next(c, s, StartupDone(t, outcome)))
  {
    var a, o, rest := s.threads[t].a, s.threads[t].o, s.threads[t].rest;
    assert Agreement.GoodThread(s, t) && LaneOk(s, t);
    if IsActive(s, a) && outcome == BecameReady {
      ReadyInv(c, s, a, o);
      ResumeInv(c, SetOp(SetStatus(s, a, Ready), Some(o), Succeeded), t, rest);
    } else {
      StartupFailedInv(c, s, t, outcome);
    }
  }

  lemma StartupFailedInv(c: Config, s: State, t: nat, outcome: Outcome)
    requires Lanes(s) && t in s.threads && s.threads[t].Starting?
    requires !IsActive(s, s.threads[t].a) || outcome != BecameReady
    ensures Inv(c, StartupOver(s, t, outcome))
  {
    var s' := StartupOver(s, t, outcome);
    assert LaneOk(s, t) && s'.threads[t].Cleaning?;
    forall u: nat ensures LaneOk(s', u) { assert LaneOk(s, u); }
  }

  /** A pending allocation becomes ready: it was admitted and still is. */
  lemma ReadyInv(c: Config, s: State, a: nat, o: nat)
    requires Inv(c, s) && a in s.allocs && s.allocs[a].status == Pending
    ensures Inv(c, SetOp(SetStatus(s, a, Ready), Some(o), Succeeded))
  {
    var s1 := SetOp(SetStatus(s, a, Ready), Some(o), Succeeded);
    forall u: nat ensures LaneOk(s1, u) { assert LaneOk(s, u); }
    forall b: nat | Pressing(s1, b) ensures Covered(c, s1, b) {
      assert Pressing(s, b);
      CoverKept(c, s, s1, b);
    }
  }

  /** The thread goes back to the promotion it was in, or ends. */
  lemma ResumeInv(c: Config, s: State, t: nat, rest: Option<Batch>)
    requires Inv(c, s) && t in s.threads && s.threads[t].Starting? && s.threads[t].rest == rest
    ensures Inv(c, Resume(s, t, rest))
  {
    var s' := Resume(s, t, rest);
    assert LaneOk(s, t);
    ResumeLanes(s, t, rest);
    forall b: nat | Pressing(s', b) ensures Covered(c, s', b) {
      assert Pressing(s, b);
      ThreadKeepsCover(c, s, s', t, b);
    }
  }

  // ----- time, pruning, the timer -----

  /** The records and threads that matter stay, and no waiter becomes more pressing. */
  lemma QuietInv(c: Config, s: State, e: Step)
    requires Inv(c, s) && Enabled(c, s, e) && (e.Renew? || e.Advance? || e.Prune?)
    ensures Inv(c, Next(c, s, e))
  {
    var s' := Next(c, s, e);
    forall t: nat ensures LaneOk(s', t) { assert LaneOk(s, t); }
    forall a: nat | Pressing(s', a) ensures Covered(c, s', a) {
      assert Pressing(s, a);
      CoverKept(c, s, s', a);
    }
  }

  lemma RetireInv(c: Config, s: State, t: nat)
    requires Inv(c, s) && Enabled(c, s, Retire(t))
    ensures Inv(c, Next(c, s, Retire(t)))
  {
    var s' := Next(c, s, Retire(t));
    forall u: nat ensures LaneOk(s', u) { assert LaneOk(s, u); }
    forall a: nat | Pressing(s', a) ensures Covered(c, s', a) {
      assert Pressing(s, a);
      if CleanupPending(s) {
        var u: nat :| u in s.threads && s.threads[u].Cleaning?;
        assert u in s'.threads && s'.threads[u].Cleaning?;
      } else if ConflictsWithAdmitted(c, s, s.allocs[a].runtimes) {
        ConflictKept(c, s, s', s.allocs[a].runtimes);
      }
    }
  }

  lemma FireTimerInv(c: Config, s: State)
    requires Inv(c, s)
    ensures Inv(c, Enqueue(s.(timer := false)))
  {
    var s1 := s.(timer := false);
    forall t: nat ensures LaneOk(s1, t) { assert LaneOk(s, t); }
    EnqueueLanes(s1);
    forall a: nat | Pressing(Enqueue(s1), a) ensures Covered(c, Enqueue(s1), a) { EnqueueCovers(s1, a); }
  }

  lemma DrainInv(c: Config, s: State, victims: seq<nat>)
    requires Inv(c, s)
    ensures Inv(c, ReleaseAll(s.(draining := true, timer := false), victims))
  {
    var s1 := s.(draining := true, timer := false);
    forall t: nat ensures LaneOk(s1, t) { assert LaneOk(s, t); }
    ReleaseAllInv(c, s1, victims);
  }

  /** Every step keeps every pressing waiter covered. */
  lemma StepInv(c: Config, s: State, e: Step)
    requires Inv(c, s) && Agreement.Inv(s) && Enabled(c, s, e)
    ensures Inv(c, Next(c, s, e))
  {
    if e.Request_? { RequestInv(c, s, e.q, e.w, e.victims); }
    else if e.Release? { ReleaseInv(c, s, e.a, Released); }
    else if e.Expire? { ReleaseInv(c, s, e.a, Expired); }
    else if e.Renew? || e.Advance? || e.Prune? { QuietInv(c, s, e); }
    else if e.FireTimer? { FireTimerInv(c, s); }
    else if e.Drain? { DrainInv(c, s, e.victims); }
    else { ThreadStepInv(c, s, e); }
  }

  lemma ThreadStepInv(c: Config, s: State, e: Step)
    requires Inv(c, s) && Agreement.Inv(s) && Enabled(c, s, e)
    requires !(e.Request_? || e.Release? || e.Expire? || e.Renew? || e.Advance? || e.Prune? || e.FireTimer? || e.Drain?)
    ensures Inv(c, Next(c, s, e))
  {
    if e.Dequeue? { DequeueInv(c, s, e.protected); }
    else if e.BeginBatch? { BeginBatchInv(c, s, e.t, e.current, e.order); }
    else if e.TickDone? { TickDoneInv(c, s, e.t, e.current, e.order); }
    else if e.Visit? { VisitInv(c, s, e.t, e.look); }
    else if e.EndBatch? { EndBatchInv(c, s, e.t); }
    else if e.LaunchAudio? { LaunchAudioInv(c, s, e.t, e.protected); }
    else if e.StartupDone? { StartupDoneInv(c, s, e.t, e.outcome); }
    else if e.CleanupDone? { CleanupDoneInv(c, s, e.t); }
    else { RetireInv(c, s, e.t); }
  }

  lemma {:induction false} RunInv(c: Config, states: seq<State>, steps: seq<Step>, i: nat)
    requires Run(c, states, steps) && i < |states|
    ensures Inv(c, states[i]) && Agreement.Inv(states[i])
  {
    Agreement.RunInv(c, states, steps, i);
    if i == 0 {
      forall t: nat ensures LaneOk(Initial, t) {}
      assert forall a: nat :: !Pressing(Initial, a);
    } else {
      RunInv(c, states, steps, i - 1);
      StepInv(c, states[i - 1], steps[i - 1]);
    }
  }

  // ----- the main results -----

  /** No promotion is queued or running for this kind of waiter, and no startup cleanup is in progress. */
  ghost predicate Quiet(s: State, audio: bool) {
    && !PromotionAhead(s, audio)
    && (Lane(audio) in s.threads ==> BatchOf(s.threads[Lane(audio)]) == None)
    && !CleanupPending(s)
  }

  lemma {:induction false} ReleaseAllEnqueues(s: State, victims: seq<nat>, b: nat)
    ensures Promote in s.chain ==> Promote in ReleaseAll(s, victims).chain
    ensures b in s.allocs ==> b in ReleaseAll(s, victims).allocs
    ensures b in s.allocs && ReleaseAll(s, victims).allocs[b] != s.allocs[b] ==> Promote in ReleaseAll(s, victims).chain
    decreases |victims|
  {
    if victims != [] {
      ReleaseAllEnqueues(ReleaseOne(s, victims[0], Released), victims[1..], b);
    }
  }

  lemma LaunchEnqueues(s: State, t: nat, a: nat, o: nat, rest: Option<Batch>, protected: bool, b: nat)
    requires b in s.allocs && Admitted(s.allocs[b].status)
    requires !Admitted(LaunchNow(s, t, a, o, rest, protected).allocs[b].status)
    ensures Promote in LaunchNow(s, t, a, o, rest, protected).chain
  {
  }

  lemma CommitKeeps(s: State, q: Request, w: Circumstance, waiting: bool, b: nat)
    requires b in s.allocs && b != s.nextA
    ensures b in Commit(s, q, w, waiting).allocs && Commit(s, q, w, waiting).allocs[b] == s.allocs[b]
    ensures Promote in s.chain ==> Promote in Commit(s, q, w, waiting).chain
  {
    var s1 := Stored(s, NewAllocation(s, q, w, waiting));
    assert b in s1.allocs && s1.allocs[b] == s.allocs[b] && s1.chain == s.chain;
  }

  lemma CreateEnqueues(c: Config, s: State, q: Request, w: Circumstance, victims: seq<nat>, b: nat)
    requires Agreement.Inv(s) && b in s.allocs && b in Create(c, s, q, w, victims).allocs
    requires Create(c, s, q, w, victims).allocs[b] != s.allocs[b]
    ensures Promote in Create(c, s, q, w, victims).chain
  {
    ReleaseAllEnqueues(s, victims, b);
    Agreement.ReleaseAllInv(s, victims);
    var s1 := ReleaseAll(s, victims);
    assert Agreement.GoodAlloc(s1, b);
    CommitKeeps(s1, q, w, PlansToWait(c, s1, q, w, ConflictsWithAdmitted(c, s, q.runtimes)), b);
  }

  /** A step that ends the admission of an allocation enqueues a promotion, or leaves a startup that will. */
  lemma EndEnqueues(c: Config, s: State, e: Step, b: nat)
    requires Agreement.Inv(s) && Enabled(c, s, e)
    requires b in s.allocs && Admitted(s.allocs[b].status) && b in Next(c, s, e).allocs
    requires !Admitted(Next(c, s, e).allocs[b].status)
    ensures Promote in Next(c, s, e).chain || CleanupPending(Next(c, s, e))
  {
    if e.Request_? {
      CreateEnqueues(c, s, e.q, e.w, e.victims, b);
    } else if e.Release? || e.Expire? {
      ReleaseEnqueues(s, e.a, if e.Release? then Released else Expired, b);
    } else if e.Drain? {
      ReleaseAllEnqueues(s.(draining := true, timer := false), e.victims, b);
    } else if e.Dequeue? || e.LaunchAudio? || e.StartupDone? || e.Visit? {
      ThreadEndEnqueues(c, s, e, b);
    } else {
      OthersKeepStatus(c, s, e, b);
    }
  }

  lemma ThreadEndEnqueues(c: Config, s: State, e: Step, b: nat)
    requires Enabled(c, s, e) && (e.Dequeue? || e.LaunchAudio? || e.StartupDone? || e.Visit?)
    requires b in s.allocs && Admitted(s.allocs[b].status) && b in Next(c, s, e).allocs
    requires !Admitted(Next(c, s, e).allocs[b].status)
    ensures Promote in Next(c, s, e).chain || CleanupPending(Next(c, s, e))
  {
    if e.Dequeue? {
      if s.chain[0].Startup? {
        LaunchEnqueues(s.(chain := s.chain[1..]), 0, s.chain[0].a, s.chain[0].o, None, e.protected, b);
      }
    } else if e.LaunchAudio? {
      LaunchEnqueues(s, e.t, s.threads[e.t].a, s.threads[e.t].o, None, e.protected, b);
    } else if e.StartupDone? {
      assert Next(c, s, e).threads[e.t].Cleaning?;
    } else {
      VisitEnqueues(c, s, e.t, e.look, b);
    }
  }

  lemma ReleaseEnqueues(s: State, a: nat, terminal: Status, b: nat)
    requires b in s.allocs && ReleaseOne(s, a, terminal).allocs[b] != s.allocs[b]
    ensures Promote in ReleaseOne(s, a, terminal).chain
  {
  }

  lemma OthersKeepStatus(c: Config, s: State, e: Step, b: nat)
    requires Enabled(c, s, e) && b in s.allocs && b in Next(c, s, e).allocs
    requires !e.Request_? && !e.Release? && !e.Expire? && !e.Drain? && !e.Dequeue? && !e.LaunchAudio? && !e.StartupDone?
        && !e.Visit?
    ensures Next(c, s, e).allocs[b].status == s.allocs[b].status
  {
  }

  /** A visit changes a waiter and what it starts; an admitted allocation stays as it is. */
  lemma VisitEnqueues(c: Config, s: State, t: nat, look: Look, b: nat)
    requires Enabled(c, s, Visit(t, look)) && b in s.allocs && s.allocs[b].status != Waiting
    ensures b in Next(c, s, Visit(t, look)).allocs && Next(c, s, Visit(t, look)).allocs[b] == s.allocs[b]
  {
    var a, rest := s.threads[t].batch.todo[0], s.threads[t].batch.(todo := s.threads[t].batch.todo[1..]);
    if a in s.allocs && s.allocs[a].status == Waiting { PromotedKeeps(s, t, a, rest, look, b); }
  }

  lemma PromotedKeeps(s: State, t: nat, a: nat, rest: Batch, look: Look, b: nat)
    requires a in s.allocs && b in s.allocs && a != b
    ensures b in Promoted(s, t, a, rest, look).allocs && Promoted(s, t, a, rest, look).allocs[b] == s.allocs[b]
  {
    var s1 := SetStatus(s, a, Pending);
    assert b in s1.allocs && s1.allocs[b] == s.allocs[b];
  }
}
