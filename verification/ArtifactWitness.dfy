/** A deployment of an artifact that its runtime does not declare. */
module ArtifactWitness {
  import opened Prelude
  import opened PromiseQueues
  import opened ArtifactJournal
  import opened ArtifactMutation
  import L = ArtifactLocks
  import R = ArtifactReservations

  /** Runtime 7 declares artifact 1, and its active release has artifact 2, which runtime 8 owns too. */
  const Shared := Registry(map[1 := [7], 2 := [7, 8]], map[7 := [1]])
  const request := L.EnsureRuntime(7, [2])
  const keys := [Runtime(7), Artifact(2)]
  const Plain := R.Config(64, 1000, false)

  const Steps := [
    AskDeploy(request, 0), Lock(0, L.Grant(0)), Lock(0, L.Acquire(0)), Lock(0, L.Grant(0)),
    Book(R.Operate(0, 1, 0)), Book(R.Persisted(0, true, true, [])), Book(R.Settled(0, true))]

  const W0 := State(L.State(map[], [L.Task(keys, 0, L.Idle)]), R.Empty, [], [])
  const W1 := State(L.State(map[Runtime(7) := [0]], [L.Task(keys, 0, L.Waiting)]), R.Deploying, [request], [0])
  const W2 := W1.(locks := W1.locks.(tasks := [L.Task(keys, 1, L.Working)]))
  const W3 := W1.(locks := L.State(map[Runtime(7) := [0], Artifact(2) := [0]], [L.Task(keys, 1, L.Waiting)]))
  const W4 := W3.(locks := W3.locks.(tasks := [L.Task(keys, 2, L.Working)]))

  const deployment := R.Task(R.Deploy, Some(1), Some(0), false, R.Persisting, R.Inside, false)
  const W5 := W4.(res := R.Deploying.(ops := map[1 := Operation(Pending, 0, true)], tasks := [deployment]))
  const W6 := W4.(res := R.Deploying.(ops := map[1 := Operation(Running, 0, true)],
      tasks := [deployment.(phase := R.Starting)]))
  const W7 := W6.(res := W6.res.(tasks := [deployment.(phase := R.Working)]))

  const States := [W0, W1, W2, W3, W4, W5, W6, W7]

  ghost predicate Goes(s: State, e: Step, t: State) { Enabled(Plain, Shared, s, e) && Next(Plain, Shared, s, e) == t }

  lemma TheKeys()
    ensures L.Plan(request) == keys
  {
    assert [2][1..] == [];
    assert L.SortedIds([2]) == [2];
    assert L.ArtifactKeys([2]) == [Artifact(2)];
  }

  lemma SevenReserved()
    ensures Reserved(Shared, request) == [7]
  {
    assert [1][1..] == [] && [7] + [] == [7] && [7][1..] == [];
    assert AllOwners(Shared, [1]) == [7];
    assert L.SortedIds([7]) == [7];
  }

  lemma DeploymentAsks()
    ensures Goes(W0, Steps[0], W1)
  {
    TheKeys();
    SevenReserved();
    R.SevenAdded();
    hide Reserved, L.Plan;
    assert R.Next(Plain, R.Empty, R.CallDeploy([7])) == R.Deploying;
    assert [] + [0] == [0];
    assert L.Next(W0.locks, L.Submit(0)).lines == W1.locks.lines;
  }

  lemma DeploymentTakesRuntime()
    ensures Goes(W1, Steps[1], W2)
  {
    hide BookAllowed, R.Next, R.Enabled, Reserved, Vacant;
  }

  lemma DeploymentAsksForArtifact()
    ensures Goes(W2, Steps[2], W3)
  {
    hide BookAllowed, R.Next, R.Enabled, Reserved, Vacant;
    assert [] + [0] == [0];
    assert L.Next(W2.locks, L.Acquire(0)).lines == W3.locks.lines;
  }

  lemma DeploymentTakesArtifact()
    ensures Goes(W3, Steps[3], W4)
  {
    hide BookAllowed, R.Next, R.Enabled, Reserved, Vacant;
  }

  lemma StartsRight()
    ensures L.Initial(W0.locks) && R.Initial(W0.res)
  {
    TheKeys();
    assert L.Plans(request, keys);
    assert AdmittedOpen(map[]) == {};
  }

  lemma DeploymentOperates()
    ensures Goes(W4, Steps[4], W5)
  {
    var ops := Created(R.Deploying.ops, 1, 0);
    assert OpenOthers(ops, 1) == {};
    assert R.Next(Plain, R.Deploying, R.Operate(0, 1, 0)) == W5.res;
    hide R.Next, Reserved, Vacant;
  }

  lemma DeploymentStarts()
    ensures Goes(W5, Steps[5], W6)
  {
    assert R.Next(Plain, W5.res, R.Persisted(0, true, true, [])) == W6.res;
    hide R.Next, Reserved, Vacant;
  }

  lemma DeploymentWorks()
    ensures Goes(W6, Steps[6], W7)
  {
    assert R.Next(Plain, W6.res, R.Settled(0, true)) == W7.res;
    hide R.Next, Reserved, Vacant;
  }

  lemma EarlyStep(k: nat)
    requires k < 4
    ensures Goes(States[k], Steps[k], States[k + 1])
  {
    hide Goes;
    if k == 0 { DeploymentAsks(); } else if k == 1 { DeploymentTakesRuntime(); }
    else if k == 2 { DeploymentAsksForArtifact(); } else { DeploymentTakesArtifact(); }
  }

  lemma LateStep(k: nat)
    requires 4 <= k < 7
    ensures Goes(States[k], Steps[k], States[k + 1])
  {
    hide Goes;
    if k == 4 { DeploymentOperates(); } else if k == 5 { DeploymentStarts(); } else { DeploymentWorks(); }
  }

  lemma TheRun()
    ensures Run(Plain, Shared, States, Steps)
  {
    StartsRight();
    hide Enabled, Next, L.Initial, R.Initial;
    forall k: nat | k < |Steps|
      ensures Enabled(Plain, Shared, States[k], Steps[k]) && States[k + 1] == Next(Plain, Shared, States[k], Steps[k])
    {
      if k < 4 { EarlyStep(k); } else { LateStep(k); }
    }
  }

  /**
   While the deployment works on artifact 2 under its lock, and may activate it, runtime 8, which owns it too, does not count
   as mutating.
   */
  lemma OwnerNotReserved()
    ensures Run(Plain, Shared, States, Steps) && States[7] == W7
    ensures W7.res.tasks[0].phase == R.Working && HoldsArtifact(W7, 0, 2)
    ensures 8 in Get(Shared.owners, 2) && CountOf(W7.res.counts, 8) == 0
  {
    TheRun();
    hide Run;
    assert keys[..2][1] == Artifact(2);
  }
}
