/** What every run of reservations keeps. */
module ReservationResults {
  import opened Prelude
  import opened ArtifactJournal
  import opened ArtifactReservations

  /**
   The closure of every reservation is called exactly once by the time the task that reserved is over, and never before,
   on every path: an early return, a failing write, work that throws, a deployment without an operation. Of the two frames
   that have it only one calls it, the queued one exactly if the caller has handed off. No other task has it.
   */
  lemma ReleasedExactlyOnce(c: Config, states: seq<State>, steps: seq<Step>, k: nat, h: nat)
    requires Run(c, states, steps) && k < |states| && h < |states[k].leases|
    ensures var s := states[k];
            && |s.handles| == |s.leases| && s.handles[h].owner < |s.tasks|
            && s.handles[h].byCaller + s.handles[h].byTask == (if s.tasks[s.handles[h].owner].phase.Over? then 1 else 0)
            && (s.tasks[s.handles[h].owner].handedOff ==> s.handles[h].byCaller == 0)
            && (!s.tasks[s.handles[h].owner].handedOff ==> s.handles[h].byTask == 0)
            && (s.leases[h].released <==> s.tasks[s.handles[h].owner].phase.Over?)
            && (forall i :: 0 <= i < |s.tasks| ==> (s.tasks[i].lease == Some(h) <==> i == s.handles[h].owner))
  {
    RunInv(c, states, steps, k);
    var s := states[k];
    assert HandleOk(s, h) && LeaseOk(s, s.handles[h].owner);
    forall i: nat | i < |s.tasks| ensures s.tasks[i].lease == Some(h) <==> i == s.handles[h].owner {
      assert LeaseOk(s, i);
    }
  }

  /** `isRuntimeMutating` is true exactly while some unfinished task has reserved the runtime. */
  lemma MutatingExactlyWhileReserved(c: Config, states: seq<State>, steps: seq<Step>, k: nat, r: nat)
    requires Run(c, states, steps) && k < |states|
    ensures CountOf(states[k].counts, r) > 0 <==> exists i: nat :: Reserves(states[k], i, r)
  {
    RunInv(c, states, steps, k);
    var s := states[k];
    HeldExactlyWhenCovered(s.leases, r);
    if Covers(s.leases, r) {
      var h :| 0 <= h < |s.leases| && !s.leases[h].released && r in s.leases[h].runtimes;
      ReleasedExactlyOnce(c, states, steps, k, h);
      assert Reserves(s, s.handles[h].owner, r);
    }
    if i: nat :| Reserves(s, i, r) { ReservedIsCounted(s, i, r); }
  }

  /** It is true exactly while some task has an operation in progress or, not being over, has reserved a runtime. */
  lemma ActiveExactlyWhile(c: Config, states: seq<State>, steps: seq<Step>, k: nat)
    requires Run(c, states, steps) && k < |states|
    ensures HasActiveOperations(states[k])
            <==> (exists i: nat :: OpenOperation(states[k], i)) || (exists i: nat, r: nat :: Reserves(states[k], i, r))
  {
    RunInv(c, states, steps, k);
    var s := states[k];
    if id :| id in s.ops && Open(s.ops[id].status) {
      assert OpOwned(s, id);
      var i: nat :| i < |s.tasks| && s.tasks[i].op == Some(id);
      assert OpOk(s, i) && OpenOperation(s, i);
    }
    if i: nat :| OpenOperation(s, i) { assert OpOk(s, i) && s.tasks[i].op.value in s.ops; }
    if s.counts != map[] {
      var r :| r in s.counts;
      assert CountOf(s.counts, r) > 0;
      MutatingExactlyWhileReserved(c, states, steps, k, r);
      var i: nat :| Reserves(s, i, r);
    }
    if i: nat, r: nat :| Reserves(s, i, r) {
      MutatingExactlyWhileReserved(c, states, steps, k, r);
      assert r in s.counts;
    }
  }

  /** When every task is over, nothing is left: no reservation, no open operation, and the coordinator is free. */
  lemma NothingLeft(c: Config, states: seq<State>, steps: seq<Step>, k: nat)
    requires Run(c, states, steps) && k < |states|
    requires forall i :: 0 <= i < |states[k].tasks| ==> states[k].tasks[i].phase.Over?
    ensures states[k].counts == map[] && !HasActiveOperations(states[k]) && states[k].busy == None
  {
    RunInv(c, states, steps, k);
    AllOver(c, states[k]);
  }

  /** Open operations past the capacity check are never more than the limit, and a task past it has one of them. */
  lemma CapacityKept(c: Config, states: seq<State>, steps: seq<Step>, k: nat, i: nat)
    requires Run(c, states, steps) && k < |states|
    ensures |AdmittedOpen(states[k].ops)| <= c.maxPending
    ensures OpenOperation(states[k], i) && !states[k].tasks[i].phase.Asking? ==>
        states[k].tasks[i].op.value in AdmittedOpen(states[k].ops)
  {
    RunInv(c, states, steps, k);
    assert OpOk(states[k], i);
  }

  /** With a coordinator one mutation is in progress at a time, and it is busy exactly while one is. */
  lemma OneMutation(c: Config, states: seq<State>, steps: seq<Step>, k: nat, i: nat, j: nat)
    requires Run(c, states, steps) && k < |states|
    ensures c.coordinated && i < |states[k].tasks| && states[k].tasks[i].phase !in {Leaving, Over} ==>
        Holder(states[k], i)
    ensures Holder(states[k], i) && Holder(states[k], j) ==> i == j
    ensures states[k].busy.Some? <==> exists x: nat :: Holder(states[k], x)
    ensures Holder(states[k], i) ==> states[k].busy == Some(states[k].tasks[i].kind)
  {
    RunInv(c, states, steps, k);
    var s := states[k];
    assert GrantOk(c, s, i) && OneHolder(s, i, j);
    if x: nat :| Holder(s, x) { assert GrantOk(c, s, x); }
  }

  /** A task is over after at most seven steps of its own, whatever fails in them, and until then it has one. */
  lemma TaskMovesOn(c: Config, states: seq<State>, steps: seq<Step>, k: nat, i: nat) returns (e: Step)
    requires Run(c, states, steps) && k < |states| && i < |states[k].tasks| && !states[k].tasks[i].phase.Over?
    ensures Enabled(c, states[k], e) && StepOf(e, i)
    ensures forall e :: Enabled(c, states[k], e) && StepOf(e, i) ==>
              i < |Next(c, states[k], e).tasks| && Rank(Next(c, states[k], e).tasks[i].phase) < Rank(states[k].tasks[i].phase)
  {
    RunInv(c, states, steps, k);
    assert LeaseOk(states[k], i);
    forall e | Enabled(c, states[k], e) && StepOf(e, i)
      ensures i < |Next(c, states[k], e).tasks|
              && Rank(Next(c, states[k], e).tasks[i].phase) < Rank(states[k].tasks[i].phase)
    {
      RankFalls(c, states[k], e, i);
    }
    e := match states[k].tasks[i].phase
      case Asking => Check(i)
      case Checking => GiveUp(i)
      case Persisting => Persisted(i, false, false, [])
      case Queued => Begin(i)
      case Leaving => Finish(i)
      case _ => Settled(i, false);
  }
}
