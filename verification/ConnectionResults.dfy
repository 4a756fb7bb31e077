/** What every run of the connection steps keeps. */
module ConnectionResults {
  import opened AgentConnections
  import Foreground = ForegroundExclusion
  import Sessions = ConnectionSessions

  // ----- foreground and background -----

  /**
   From the moment an exclusive request is accepted until someone finishes it, no background-when-idle connection has an
   active request.
   */
  lemma ForegroundExcludesBackground(states: seq<State>, steps: seq<Step>, i: nat, c: nat, r: nat)
    requires Run(states, steps) && i < |states|
    requires c in states[i].calls && states[i].calls[c].kind.Request? && states[i].calls[c].kind.exclusive
    requires states[i].calls[c].phase.Accepted? && !states[i].calls[c].finished
    ensures !BackgroundActive(states[i], r)
  {
    Foreground.RunInv(states, steps, i);
    assert Foreground.Safe(states[i], c) && Foreground.EntryUntilFinished(states[i], c);
  }

  /** While a foreground-exclusive connection is being created, from its preemption on, the same. */
  lemma CreationExcludesBackground(states: seq<State>, steps: seq<Step>, i: nat, c: nat, r: nat)
    requires Run(states, steps) && i < |states|
    requires c in states[i].calls && Counted(states[i].calls[c])
    requires states[i].calls[c].phase.Clear? || states[i].calls[c].phase.Allocating? || states[i].calls[c].phase.Stored?
    ensures !BackgroundActive(states[i], r)
  {
    Foreground.RunInv(states, steps, i);
    assert Foreground.Safe(states[i], c);
  }

  /** If requests are finished only after they were accepted, a request in progress still has its own entry. */
  lemma {:induction false} EnteredWhenAccepted(states: seq<State>, steps: seq<Step>, i: nat, c: nat)
    requires Run(states, steps) && i < |states|
    requires forall j :: 0 <= j < |steps| ==> Foreground.Disciplined(states[j], steps[j])
    ensures Foreground.Unfinished(states[i])
    ensures c in states[i].calls && Foreground.InProgress(states[i].calls[c]) ==> Foreground.Entered(states[i], c)
  {
    Foreground.RunInv(states, steps, i);
    if i > 0 {
      EnteredWhenAccepted(states, steps, i - 1, c);
      Foreground.RunInv(states, steps, i - 1);
      Foreground.StepUnfinished(states[i - 1], steps[i - 1]);
    }
    assert Foreground.EntryUntilFinished(states[i], c);
  }

  /**
   The exact condition: after the step in which a call has entered its request, the entry is still its own at any later
   moment, acceptance included, if and only if no step in between finished the request by name.
   `ConnectionWitness.AcceptedAfterFinish` is a run in which one did.
   */
  lemma {:induction false} EnteredExactlyUntilFinished(states: seq<State>, steps: seq<Step>, i: nat, j: nat, c: nat)
    requires Run(states, steps) && i < j < |states|
    requires c !in states[i].calls && c in states[i + 1].calls && states[i + 1].calls[c].kind.Request?
    ensures c in states[j].calls && states[j].calls[c].kind == states[i + 1].calls[c].kind
    ensures var k := states[i + 1].calls[c].kind;
            Foreground.Entered(states[j], c) <==> forall m :: i < m < j ==> !Foreground.Finishes(states[m], steps[m], k.r, k.q)
    decreases j
  {
    var n, k := i + 1, states[i + 1].calls[c].kind;
    EntryIs(states, steps, j, c);
    hide Enabled, Next, Foreground.Finishes, Foreground.Entered;
    if j == n {
      Foreground.EntersUnfinished(states[i], steps[i], c);
    } else {
      var b := j - 1;
      EnteredExactlyUntilFinished(states, steps, i, b, c);
      EntryIs(states, steps, b, c);
      Foreground.StepFinished(states[b], steps[b], c, k.r, k.q);
      assert states[j] == Next(states[b], steps[b]);
    }
  }

  lemma EntryIs(states: seq<State>, steps: seq<Step>, j: nat, c: nat)
    requires Run(states, steps) && j < |states|
    ensures Foreground.EntryUntilFinished(states[j], c) && (c in states[j].calls ==> c < states[j].next)
  {
    Foreground.RunInv(states, steps, j);
  }

  /** The counter of foreground creations is exact, so it is back at zero when none is in progress. */
  lemma CreationsCountedExactly(states: seq<State>, steps: seq<Step>, i: nat)
    requires Run(states, steps) && i < |states|
    ensures states[i].creations == |Foreground.CountedCalls(states[i].calls)|
    ensures states[i].creations == 0 <==> forall c :: c in states[i].calls ==> !Counted(states[i].calls[c])
  {
    Foreground.RunInv(states, steps, i);
    var counted := Foreground.CountedCalls(states[i].calls);
    if forall c :: c in states[i].calls ==> !Counted(states[i].calls[c]) {
      assert counted == {};
    } else {
      var c :| c in states[i].calls && Counted(states[i].calls[c]);
      assert c in counted;
    }
  }

  // ----- sessions -----

  /** In every reachable state a session has at most one connection that has not ended. */
  lemma OneLiveConnection(states: seq<State>, steps: seq<Step>, i: nat, r1: nat, r2: nat)
    requires Run(states, steps) && i < |states|
    requires r1 in states[i].records && r2 in states[i].records
    requires states[i].records[r1].scope == states[i].records[r2].scope
    requires !Terminal(states[i].records[r1].status) && !Terminal(states[i].records[r2].status)
    ensures r1 == r2
  {
    Sessions.RunInv(states, steps, i);
    assert Sessions.OneOf(states[i], states[i].records[r1].scope, r1, r2);
  }

  /** Two creations of one session are never past its lock together. */
  lemma OneInside(states: seq<State>, steps: seq<Step>, i: nat, c: nat, d: nat)
    requires Run(states, steps) && i < |states| && c in states[i].calls && d in states[i].calls
    requires Sessions.Inside(states[i].calls[c]) && Sessions.Inside(states[i].calls[d])
    requires states[i].calls[c].kind.scope == states[i].calls[d].kind.scope
    ensures c == d
  {
    Sessions.RunInv(states, steps, i);
    assert Sessions.GoodCall(states[i], c) && Sessions.GoodCall(states[i], d);
  }

  /** A connection that has ended never lives again: later it has ended still, or has been forgotten for good. */
  lemma {:induction false} EndedForGood(states: seq<State>, steps: seq<Step>, i: nat, j: nat, r: nat)
    requires Run(states, steps) && i <= j < |states|
    requires r in states[i].records && Terminal(states[i].records[r].status)
    ensures r < states[j].next && (r in states[j].records ==> Terminal(states[j].records[r].status))
  {
    Sessions.RunInv(states, steps, j);
    if i < j {
      EndedForGood(states, steps, i, j - 1, r);
      Sessions.RunInv(states, steps, j - 1);
      if r in states[j - 1].records { Sessions.StaysEnded(states[j - 1], steps[j - 1], r); }
      else { Sessions.StaysForgotten(states[j - 1], steps[j - 1], r); }
    }
  }
}
