/** What every run of the allocation steps keeps. */
module AllocationResults {
  import opened Prelude
  import opened AllocationControl
  import Agreement = AllocationAgreement
  import Audio = AllocationAudio
  import Capacity = AllocationCapacity
  import WakeUps = AllocationWakeUps

  // ----- allocations and operations -----

  /**
   In every reachable state an operation that still exists is: queued for a waiting allocation, open for a pending one,
   succeeded for a ready one, and closed for a failed, released or expired one; no two allocations share it. The branch
   of promotion that finds no operation is never taken.
   */
  lemma AllocationAndOperationAgree(c: Config, states: seq<State>, steps: seq<Step>, i: nat, a: nat, b: nat)
    requires Run(c, states, steps) && i < |states| && a in states[i].allocs
    ensures var s, x := states[i], states[i].allocs[a];
            && (x.status == Waiting ==> x.op.Some? && x.op.value in s.ops && s.ops[x.op.value] == Queued)
            && (x.status == Pending ==> x.op.Some? && x.op.value in s.ops && s.ops[x.op.value] in {Queued, Running})
            && (x.op.Some? && x.op.value in s.ops && x.status == Ready ==> s.ops[x.op.value] == Succeeded)
            && (x.op.Some? && x.op.value in s.ops && !Active(x.status) ==> s.ops[x.op.value] !in {Queued, Running})
            && (b in s.allocs && b != a && x.op.Some? ==> s.allocs[b].op != x.op)
  {
    Agreement.RunInv(c, states, steps, i);
    assert Agreement.GoodAlloc(states[i], a) && Agreement.DifferentOps(states[i], a, b);
  }

  /**
   Released and expired are absorbing, and an operation leaves queued or running at most once: between any two states of
   a run, what was settled in the earlier is unchanged or pruned in the later, and a pruned id never comes back.
   */
  lemma {:induction false} SettledForGood(c: Config, states: seq<State>, steps: seq<Step>, i: nat, j: nat)
    requires Run(c, states, steps) && i <= j < |states|
    ensures Agreement.Settled(states[i], states[j])
    decreases j - i
  {
    if i < j {
      SettledForGood(c, states, steps, i, j - 1);
      Agreement.RunInv(c, states, steps, j - 1);
      Agreement.StepSettled(c, states[j - 1], steps[j - 1]);
      Agreement.RunInv(c, states, steps, i);
      Agreement.SettledTransitive(states[i], states[j - 1], states[j]);
    }
  }

  // ----- capacity -----

  /**
   For every registry and every run: at any moment no runtime has more admitted allocations than it declares, and while
   anything is admitted, the runtimes in use together with the residents fit every node's usable memory.
   */
  lemma {:induction false} AdmittedSetAlwaysFeasible(c: Config, states: seq<State>, steps: seq<Step>, i: nat)
    requires Run(c, states, steps) && i < |states|
    ensures forall r :: r in c.capacity && c.capacity[r] != 0 ==> |Users(states[i], r)| <= c.capacity[r]
    ensures forall n: nat :: InUse(states[i]) != {} ==> Memory(c, n, InUse(states[i]) + c.resident) <= c.usable(n)
  {
    if i == 0 {
      assert forall r: nat :: Users(Initial, r) == {};
      assert InUse(Initial) == {};
    } else {
      AdmittedSetAlwaysFeasible(c, states, steps, i - 1);
      Agreement.RunInv(c, states, steps, i - 1);
      Capacity.StepFeasible(c, states[i - 1], steps[i - 1]);
    }
  }

  // ----- wake-ups -----

  /**
   In every reachable quiet state an unexpired waiter has a retry timer armed or conflicts with an admitted allocation,
   whatever requests, releases, expiries, startups and prunings were interleaved: always on the control chain, and for an
   audio waiter unless the last wake-up missed it. If it did, no timer is armed, so the condition is exact.
   `AudioWakeUpTakenExactlyWhen` says which waiters a wake-up misses.
   */
  lemma NoLostWakeUp(c: Config, states: seq<State>, steps: seq<Step>, i: nat, a: nat)
    requires Run(c, states, steps) && i < |states|
    requires var s := states[i]; !s.draining && a in s.allocs && s.allocs[a].status == Waiting && !Due(s, a)
    requires var s := states[i]; WakeUps.Quiet(s, s.allocs[a].audio)
    ensures var s := states[i];
            !(s.allocs[a].audio && a in s.missed) ==> s.timer || ConflictsWithAdmitted(c, s, s.allocs[a].runtimes)
    ensures states[i].allocs[a].audio && a in states[i].missed ==> !states[i].timer
  {
    WakeUps.RunInv(c, states, steps, i);
    Audio.RunReaches(c, states, steps, i);
    if !(states[i].allocs[a].audio && a in states[i].missed) {
      assert WakeUps.Pressing(states[i], a) && WakeUps.Covered(c, states[i], a);
    }
  }

  /**
   After a wake-up something will look at an audio waiter exactly if the timer is armed, there was no audio promotion, the
   promotion has not listed its waiters yet, or its batch still has this one or a retry. The others are the ones missed.
   */
  lemma AudioWakeUpTakenExactlyWhen(s: State, a: nat)
    requires WaiterOf(s, true, a)
    ensures WakeUps.Attended(Enqueue(s), a) <==> s.timer || 1 !in s.threads || BeforeSnapshot(s.threads[1]) || InBatch(s, a, 1)
    ensures WakeUps.Attended(Enqueue(s), a) <==> a !in Enqueue(s).missed
  {
    Audio.EnqueueReckons(s);
    assert WaiterOf(Enqueue(s), true, a);
  }

  /**
   What it is to be missed: when every audio waiter is attended to or recorded, as after any wake-up, and neither the timer
   nor a retry is set, the waiters recorded are exactly those that the promotion in progress does not look at to its end.
   */
  lemma MissedExactlyWhenNotLookedAt(c: Config, states: seq<State>, steps: seq<Step>, i: nat, j: nat, a: nat)
    requires Run(c, states, steps) && Audio.Lasts(states, i, j) && Audio.Reckoned(states[i])
    requires WaiterOf(states[i], true, a) && !states[i].timer && !Audio.BatchNow(states[i]).retry
    ensures a in states[i].missed <==> !Audio.LookedAt(states, steps, i, j, a)
  {
    Audio.LooksAtWhatItListed(c, states, steps, i, j, a);
    assert WakeUps.Attended(states[i], a) <==> InBatch(states[i], a, 1);
  }

  /**
   The other half: a step that ends the admission of an allocation enqueues a promotion on the control chain, and reaches
   every audio waiter or records that it was missed; or it leaves a startup that will enqueue.
   */
  lemma AdmittedEndEnqueues(c: Config, states: seq<State>, steps: seq<Step>, i: nat, b: nat)
    requires Run(c, states, steps) && i < |steps|
    requires b in states[i].allocs && Admitted(states[i].allocs[b].status)
    requires b in states[i + 1].allocs && !Admitted(states[i + 1].allocs[b].status)
    ensures WakeUps.CleanupPending(states[i + 1])
            || (Promote in states[i + 1].chain && Audio.Reckoned(states[i + 1]))
  {
    WakeUps.RunInv(c, states, steps, i);
    WakeUps.EndEnqueues(c, states[i], steps[i], b);
    Audio.EndReckons(c, states[i], steps[i], b);
  }
}
