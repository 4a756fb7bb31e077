/** What every run of tasks with their locks keeps. */
module ArtifactResults {
  import opened Prelude
  import opened ArtifactJournal
  import opened ArtifactMutation
  import opened ArtifactProgress
  import L = ArtifactLocks
  import R = ArtifactReservations

  /**
   While an activation or a rollback holds the lock of an artifact, every runtime that owns the artifact counts as mutating,
   in every reachable state.
   */
  lemma MutatingWhileLocked(c: R.Config, reg: Registry, states: seq<State>, steps: seq<Step>, k: nat, i: nat, a: nat,
      r: nat)
    requires Run(c, reg, states, steps) && k < |states| && HoldsArtifact(states[k], i, a)
    requires i < |states[k].res.tasks| && states[k].res.tasks[i].kind in {R.Activate, R.Rollback}
        && r in Get(reg.owners, a)
    ensures CountOf(states[k].res.counts, r) > 0
  {
    RunInv(c, reg, states, steps, k);
    var s := states[k];
    hide Run, R.Ledgers, R.Operations, R.Coordinator, L.Inv;
    assert JobOk(reg, s, i);
    LockedIsReserved(c, reg, s, i, a, r);
    AffectedAreOwners(reg, L.Listed(s.asks[i]), r);
    R.ReservedIsCounted(s.res, i, r);
  }

  /**
   A deployment locks the artifacts of the active release, but reserves for those that its runtime declares. So while it holds
   a lock it has reserved a runtime exactly if that owns one of the declared artifacts; such a runtime counts as mutating.
   */
  lemma DeploymentReservesDeclared(c: R.Config, reg: Registry, states: seq<State>, steps: seq<Step>, k: nat, i: nat,
      a: nat, r: nat)
    requires Run(c, reg, states, steps) && k < |states| && HoldsArtifact(states[k], i, a)
    requires i < |states[k].res.tasks| == |states[k].asks| && states[k].asks[i].EnsureRuntime?
    ensures R.Reserves(states[k].res, i, r) <==> Owns(reg, r, Get(reg.declared, states[k].asks[i].runtime))
    ensures Owns(reg, r, Get(reg.declared, states[k].asks[i].runtime)) ==> CountOf(states[k].res.counts, r) > 0
  {
    RunInv(c, reg, states, steps, k);
    var s := states[k];
    hide Run, R.Ledgers, R.Operations, R.Coordinator, L.Inv;
    assert JobOk(reg, s, i);
    LockedIsReserved(c, reg, s, i, a, r);
    AffectedAreOwners(reg, Get(reg.declared, s.asks[i].runtime), r);
    if R.Reserves(s.res, i, r) { R.ReservedIsCounted(s.res, i, r); }
  }

  /**
   In every reachable state in which some task is not over with all its keys given back, a step is enabled that takes some
   task on.
   */
  lemma NeverStuck(c: R.Config, reg: Registry, states: seq<State>, steps: seq<Step>, k: nat, i: nat) returns (e: Step)
    requires Run(c, reg, states, steps) && k < |states| && Placed(states[k], i) && !Settled(states[k], i)
    ensures Enabled(c, reg, states[k], e) && TaskStep(e)
  {
    RunInv(c, reg, states, steps, k);
    e := SomeTaskCanStep(c, reg, states[k], i);
  }

  /**
   No starvation: no run, whatever fails in it, takes its tasks on more often than the plans allow, and one in which no task
   can be taken on has every task over with its keys given back, all lines empty, and nothing reserved or open.
   */
  lemma EveryRunCompletes(c: R.Config, reg: Registry, states: seq<State>, steps: seq<Step>)
    requires Run(c, reg, states, steps)
    ensures CountTaskSteps(steps) <= L.TotalLeft(states[0].locks.tasks) + 7 * |states[0].locks.tasks|
    ensures var last := states[|steps|];
            (forall e :: TaskStep(e) ==> !Enabled(c, reg, last, e)) ==>
              && (forall i: nat :: i < |last.res.tasks| ==> Placed(last, i) && Settled(last, i))
              && (forall k :: L.Line(last.locks, k) == [])
              && last.res.counts == map[] && last.res.busy == None && !R.HasActiveOperations(last.res)
  {
    var n := |steps|;
    RunUsesUp(c, reg, states, steps, n);
    RunInv(c, reg, states, steps, n);
    assert steps[..n] == steps;
    var last := states[n];
    hide Run, Enabled, TaskStep, R.Ledgers, R.Operations, R.Coordinator, L.Inv;
    PlacesWithin(reg, last);
    if forall e :: TaskStep(e) ==> !Enabled(c, reg, last, e) {
      forall i: nat | Placed(last, i) ensures Settled(last, i) {
        if !Settled(last, i) { var e := SomeTaskCanStep(c, reg, last, i); }
      }
      AllSettled(c, reg, last);
      forall i: nat | i < |last.res.tasks| ensures Placed(last, i) { assert JobOk(reg, last, i); }
    }
  }
}
