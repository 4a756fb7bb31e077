/**
 A run in which the wake-up of an audio waiter is lost: the release it waits for comes while the audio promotion is in
 progress and has already passed it, so no promotion is enqueued for it. Afterwards nothing is queued, running or armed
 that would look at it, although it would be admitted.
 */
module AllocationLostWakeUp {
  import opened Prelude
  import opened AllocationControl
  import opened AllocationWakeUps

  /** Two runtimes, each for one allocation at a time; memory is no constraint. */
  const Two := Config(map[1 := 1, 2 := 1], map[], (r: nat) => 0, (r: nat) => 0, {}, (n: nat) => 1, 100)

  const Seen := Observation({}, (n: nat) => 0, true)
  const Clear := Circumstance(false, false, false, true, false, Seen)
  const Held := Circumstance(true, false, false, true, false, Seen)
  const Fine := Look(false, false, Seen, false, false)

  const Holder := Request({1}, 0, true, 9, true, true, false)
  const Waiter := Request({1}, 0, true, 9, true, false, false)
  const Other := Request({2}, 0, true, 9, true, false, false)

  /** The holder is ready, the waiter waits for its runtime, the other waits because of a switch hold. */
  const Steps := [
    Request_(Holder, Clear, []), Request_(Waiter, Clear, []), Request_(Other, Held, []),
    BeginBatch(1, true, [1, 2]), Visit(1, Fine), Visit(1, Fine),
    Release(0),
    StartupDone(1, BecameReady), EndBatch(1), Retire(1)]

  const held := Allocation(Ready, None, {1}, 0, 0, 9, true, true, NoSlot)
  const waits := Allocation(Waiting, Some(0), {1}, 0, 0, 9, true, false, NoSlot)
  const other := Allocation(Waiting, Some(1), {2}, 0, 0, 9, true, false, NoSlot)
  const starts := other.(status := Pending, slot := OnThread(1))

  const S1 := State(map[0 := held], map[], [], map[0 := Free], false, false, 0, 1, 0, {})
  const S2 := State(map[0 := held, 1 := waits], map[0 := Queued], [Promote], map[0 := Free, 1 := Begin(true)],
                    false, false, 0, 2, 1, {})
  const S3 := State(map[0 := held, 1 := waits, 2 := other], map[0 := Queued, 1 := Queued], [Promote, Promote],
                    map[0 := Free, 1 := Begin(true)], false, false, 0, 3, 2, {})
  const S4 := S3.(threads := map[0 := Free, 1 := Looping(Batch(true, [1, 2], false))])
  const S5 := S3.(threads := map[0 := Free, 1 := Looping(Batch(true, [2], false))])
  const S6 := S3.(allocs := map[0 := held, 1 := waits, 2 := starts], ops := map[0 := Queued, 1 := Running],
                  threads := map[0 := Free, 1 := Starting(2, 1, Some(Batch(true, [], false)))])
  const S7 := S6.(allocs := map[0 := held.(status := Released), 1 := waits, 2 := starts],
                  chain := [Promote, Promote, Promote], missed := {1})
  const S8 := S7.(allocs := map[0 := held.(status := Released), 1 := waits, 2 := starts.(status := Ready)],
                  ops := map[0 := Queued, 1 := Succeeded],
                  threads := map[0 := Free, 1 := Looping(Batch(true, [], false))])
  const S9 := S8.(threads := map[0 := Free, 1 := Ended])
  const S10 := S8.(threads := map[0 := Free])

  const States := [Initial, S1, S2, S3, S4, S5, S6, S7, S8, S9, S10]

  ghost predicate Goes(s: State, e: Step, t: State) { Enabled(Two, s, e) && Next(Two, s, e) == t }

  lemma {:induction false} NoMemory(n: nat, runtimes: set<nat>)
    ensures Memory(Two, n, runtimes) == 0
    decreases |runtimes|
  {
    if runtimes != {} {
      var r :| r in runtimes && Memory(Two, n, runtimes) == (if Two.node(r) == n then Two.memory(r)
        else 0) + Memory(Two, n, runtimes - {r});
      NoMemory(n, runtimes - {r});
    }
  }

  /** On these two runtimes admission is a question of capacity alone. */
  lemma CapacityDecides(s: State, r: nat)
    requires r in {1, 2}
    ensures AdmissionOk(Two, s, {r}, Seen) <==> Users(s, r) == {}
  {
    var committed := InUse(s) + Two.resident + Seen.committed;
    forall n: nat
      ensures Memory(Two, n, committed) + Memory(Two, n, {r} - committed) + Seen.service(n) <= Two.usable(n)
    {
      NoMemory(n, committed);
      NoMemory(n, {r} - committed);
    }
    assert r in Two.capacity && Two.capacity[r] == 1;
    if Users(s, r) != {} { assert |Users(s, r)| >= 1; }
  }

  lemma Start()
    ensures Goes(Initial, Steps[0], S1)
  {
    CapacityDecides(Initial, 1);
  }

  lemma WaiterPlan()
    ensures PlansToWait(Two, S1, Waiter, Clear, true) && ConflictsWithAdmitted(Two, S1, {1})
    ensures !PlanRejects(Two, S1, Waiter, Clear, true)
  {
    NoRoom(S1);
    HolderInTheWay(S1);
  }

  lemma WaiterCommits()
    ensures Commit(S1, Waiter, Clear, true) == S2
  {
    var s1 := Stored(S1, waits);
    assert NewAllocation(S1, Waiter, Clear, true) == waits;
    assert 1 in s1.allocs && s1.allocs[1].status == Waiting && s1.allocs[1].audio;
  }

  lemma WaiterWaits()
    ensures Goes(S1, Steps[1], S2)
  {
    WaiterPlan();
    WaiterCommits();
    hide PlansToWait, PlanRejects, ConflictsWithAdmitted, Commit;
    assert Steps[1] == Request_(Waiter, Clear, []) && ReleaseAll(S1, []) == S1;
    assert Create(Two, S1, Waiter, Clear, []) == S2;
  }

  lemma OtherWaits()
    ensures Goes(S2, Steps[2], S3)
  {
    var s1 := Stored(S2, other);
    assert 1 in s1.allocs && s1.allocs[1].status == Waiting && s1.allocs[1].audio;
  }

  lemma ListsWaiters()
    ensures Goes(S3, Steps[3], S4)
  {
    assert Steps[3] == BeginBatch(1, true, [1, 2]);
    forall a: nat ensures a in [1, 2] <==> WaiterOf(S3, true, a) {}
    assert Snapshot(S3, true, [1, 2]);
  }

  lemma NoneHigher(s: State)
    requires forall b :: b in s.allocs ==> s.allocs[b].priority == 0
    ensures !ConflictsWithHigher(Two, s, {1}, 0) && !ConflictsWithHigher(Two, s, {2}, 0)
  {
  }

  lemma NoRoom(s: State)
    requires 0 in s.allocs && s.allocs[0] == held
    ensures !AdmissionOk(Two, s, {1}, Seen)
  {
    CapacityDecides(s, 1);
    assert 0 in Users(s, 1);
  }

  lemma HolderInTheWay(s: State)
    requires 0 in s.allocs && s.allocs[0] == held
    ensures ConflictsWithAdmitted(Two, s, {1})
  {
    assert 1 in s.allocs[0].runtimes;
    assert ConflictsWith(Two, s, {1}, 0, false);
  }

  lemma WaiterDecision()
    ensures Decide(Two, S4, waits, Fine) == Wait(false)
  {
    NoRoom(S4);
    HolderInTheWay(S4);
    NoneHigher(S4);
    assert waits.runtimes == {1} && waits.priority == 0;
  }

  lemma PassesWaiter()
    ensures Goes(S4, Steps[4], S5)
  {
    WaiterDecision();
    hide Decide;
    assert Steps[4] == Visit(1, Fine) && S4.allocs[1] == waits && [1, 2][1..] == [2];
    assert S4.threads[1].batch == Batch(true, [1, 2], false);
    assert Next(Two, S4, Visit(1, Fine)) == Visited(Two, S4, 1, Batch(true, [1, 2], false), Fine);
  }

  lemma OtherDecision()
    ensures Decide(Two, S5, other, Fine) == Admit
  {
    assert AdmissionOk(Two, S5, {2}, Seen) by {
      assert Users(S5, 2) == {};
      CapacityDecides(S5, 2);
    }
    NoneHigher(S5);
    assert other.runtimes == {2} && other.priority == 0;
  }

  lemma OtherLaunched()
    ensures Promoted(S5, 1, 2, Batch(true, [], false), Fine) == S6
  {
    var s1 := SetStatus(S5, 2, Pending);
    assert s1.allocs == map[0 := held, 1 := waits, 2 := other.(status := Pending)];
    assert SetOp(s1, Some(1), Running).ops == S6.ops;
    assert LaunchNow(s1, 1, 2, 1, Some(Batch(true, [], false)), false) == S6;
  }

  lemma StartsOther()
    ensures Goes(S5, Steps[5], S6)
  {
    OtherDecision();
    hide Decide;
    assert Steps[5] == Visit(1, Fine) && S5.allocs[2] == other && [2][1..] == [];
    OtherLaunched();
  }

  lemma HolderClosed()
    ensures Closed(S6, 0, Released) == S7.(chain := S6.chain, missed := {})
    ensures WaiterOf(Closed(S6, 0, Released), true, 1)
  {
  }

  lemma WaiterOverlooked()
    ensures Enqueue(Closed(S6, 0, Released)) == S7
  {
    HolderClosed();
    var s1 := Closed(S6, 0, Released);
    hide Closed;
    assert Overlooked(s1) == {1};
  }

  lemma WakeUpMissed()
    ensures Goes(S6, Steps[6], S7)
  {
    WaiterOverlooked();
    hide Closed, Enqueue;
    assert Steps[6] == Release(0);
  }

  lemma OtherReady()
    ensures Goes(S7, Steps[7], S8)
  {
    hide Create, Snapshot, ReleaseOne, ReleaseAll, LaunchNow, Visited, Enqueue;
    assert Steps[7] == StartupDone(1, BecameReady) && IsActive(S7, 2);
    assert SetOp(SetStatus(S7, 2, Ready), Some(1), Succeeded).allocs == S8.allocs;
  }

  lemma PromotionEnds()
    ensures Goes(S8, Steps[8], S9)
  {
    hide Create, Snapshot, ReleaseOne, ReleaseAll, LaunchNow, StartupOver, Visited, Enqueue;
    assert Steps[8] == EndBatch(1);
  }

  lemma PromotionForgotten()
    ensures Goes(S9, Steps[9], S10)
  {
    hide Create, Snapshot, ReleaseOne, ReleaseAll, LaunchNow, StartupOver, Visited, Enqueue;
    assert Steps[9] == Retire(1);
  }

  lemma NoConflict(b: nat)
    ensures !(ConflictsWith(Two, S10, {1}, b, false) && Admitted(S10.allocs[b].status))
  {
  }

  lemma NothingHeld()
    ensures !ConflictsWithAdmitted(Two, S10, {1}) && AdmissionOk(Two, S10, {1}, Seen)
  {
    assert AdmissionOk(Two, S10, {1}, Seen) by {
      assert Users(S10, 1) == {};
      CapacityDecides(S10, 1);
    }
    forall b: nat ensures !(ConflictsWith(Two, S10, {1}, b, false) && Admitted(S10.allocs[b].status)) { NoConflict(b); }
  }

  lemma WaiterForgotten()
    ensures !S10.draining && S10.allocs[1].status == Waiting && S10.allocs[1].audio && !Due(S10, 1) && Quiet(S10, true)
    ensures !S10.timer && S10.allocs[1].runtimes == {1}
  {
  }

  lemma TheRun()
    ensures Run(Two, States, Steps)
  {
    hide Enabled, Next;
    forall i: nat | i < |Steps| ensures Enabled(Two, States[i], Steps[i])
      && States[i + 1] == Next(Two, States[i], Steps[i]) {
      EveryStep(i);
    }
  }

  /** So `NoLostWakeUp` fails for audio without its condition that the last wake-up reached the waiter. */
  lemma AudioWakeUpLost()
    ensures Run(Two, States, Steps) && States[10] == S10 && S10.missed == {1}
    ensures !S10.draining && S10.allocs[1].status == Waiting && S10.allocs[1].audio && !Due(S10, 1) && Quiet(S10, true)
    ensures !S10.timer && !ConflictsWithAdmitted(Two, S10, S10.allocs[1].runtimes)
    ensures AdmissionOk(Two, S10, S10.allocs[1].runtimes, Seen)
  {
    hide Run, ConflictsWithAdmitted, AdmissionOk, Quiet;
    TheRun();
    WaiterForgotten();
    NothingHeld();
  }

  lemma EveryStep(i: nat)
    requires i < 10
    ensures Goes(States[i], Steps[i], States[i + 1])
  {
    hide Goes;
    if i < 3 { WaitStep(i); } else if i < 5 { PassStep(i); } else if i < 7 { MissStep(i); } else { LateStep(i); }
  }

  lemma WaitStep(i: nat)
    requires i < 3
    ensures Goes(States[i], Steps[i], States[i + 1])
  {
    hide Goes;
    if i == 0 { Start(); } else if i == 1 { WaiterWaits(); } else { OtherWaits(); }
  }

  lemma PassStep(i: nat)
    requires 3 <= i < 5
    ensures Goes(States[i], Steps[i], States[i + 1])
  {
    hide Goes;
    if i == 3 { ListsWaiters(); } else { PassesWaiter(); }
  }

  lemma MissStep(i: nat)
    requires 5 <= i < 7
    ensures Goes(States[i], Steps[i], States[i + 1])
  {
    hide Goes;
    if i == 5 { StartsOther(); } else { WakeUpMissed(); }
  }

  lemma LateStep(i: nat)
    requires 7 <= i < 10
    ensures Goes(States[i], Steps[i], States[i + 1])
  {
    hide Goes;
    if i == 7 { OtherReady(); } else if i == 8 { PromotionEnds(); } else { PromotionForgotten(); }
  }
}
