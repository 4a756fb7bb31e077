/** An accepted request that was finished before. */
module ConnectionWitness {
  import opened AgentConnections

  // A run in which `beginProviderRequest` accepts an exclusive request that someone finished while it was preempting, and in
  // which a background request is then admitted beside it.

  const Steps := [
    Ask(0, Exclusive), EnterSession(0, true), ListVictims(0, []), Continue(0), StoreRecord(0, true), LeaveCreation(0, false),
    Lifecycle(1, MarkedReady),
    BeginRequest(1, 5, true, true, []), FinishRequest(1, 5), Continue(2),
    Ask(1, Background), EnterSession(3, true), StoreRecord(3, true), LeaveCreation(3, false),
    Lifecycle(4, MarkedReady),
    BeginRequest(4, 6, true, true, [4])]

  const creation := Call(Creation(0, Exclusive, false), Queued, false)
  const request := Call(Request(1, 5, true), Clear, false)
  const background := Call(Creation(1, Background, false), Queued, false)
  const foreground := Record(0, Exclusive, Ready, map[])
  const quiet := Record(1, Background, Ready, map[])

  const S1 := State(map[], map[0 := creation], map[0 := [0]], 0, 1)
  const S2 := S1.(calls := map[0 := creation.(phase := Protecting)], creations := 1)
  const S3 := S2.(calls := map[0 := creation.(phase := Clear)])
  const S4 := S2.(calls := map[0 := creation.(phase := Allocating)])
  const S5 := S2.(calls := map[0 := creation.(phase := Stored(1))],
      records := map[1 := foreground.(status := Probing)], next := 2)
  const S6 := S5.(calls := map[0 := creation.(phase := Over)], lines := map[0 := []], creations := 0)
  const S7 := S6.(records := map[1 := foreground])
  const S8 := S7.(records := map[1 := foreground.(active := map[5 := Active(true, 2)])],
                  calls := map[0 := creation.(phase := Over), 2 := request], next := 3)
  const S9 := S7.(calls := map[0 := creation.(phase := Over), 2 := request.(finished := true)], next := 3)
  const S10 := S7.(calls := map[0 := creation.(phase := Over), 2 := request.(phase := Accepted, finished := true)],
      next := 3)
  const S11 := S10.(calls := S10.calls[3 := background], lines := map[0 := [], 1 := [3]], next := 4)
  const S12 := S11.(calls := S10.calls[3 := background.(phase := Allocating)])
  const S13 := S11.(calls := S10.calls[3 := background.(phase := Stored(4))],
                    records := map[1 := foreground, 4 := quiet.(status := Probing)], next := 5)
  const S14 := S13.(calls := S10.calls[3 := background.(phase := Over)], lines := map[0 := [], 1 := []])
  const S15 := S14.(records := map[1 := foreground, 4 := quiet])
  const S16 := S15.(records := map[1 := foreground, 4 := quiet.(active := map[6 := Active(false, 5)])],
                    calls := S14.calls[5 := Call(Request(4, 6, false), Accepted, false)], next := 6)

  const States := [Initial, S1, S2, S3, S4, S5, S6, S7, S8, S9, S10, S11, S12, S13, S14, S15, S16]

  ghost predicate Goes(s: State, e: Step, t: State) { Enabled(s, e) && Next(s, e) == t }

  lemma CreationAsks()
    ensures Goes(Initial, Steps[0], S1)
  {
    assert [] + [0] == [0];
    assert Next(Initial, Ask(0, Exclusive)).lines == S1.lines;
  }

  lemma CreationEnters()
    ensures Goes(S1, Steps[1], S2)
  {
    assert forall r :: !Live(S1, r, 0);
    assert Enter(S1, 0, true).calls == S2.calls;
  }

  lemma CreationClears()
    ensures Goes(S2, Steps[2], S3)
    ensures Goes(S3, Steps[3], S4)
  {
    assert forall r :: !Victim(S2, r);
  }

  lemma CreationStores()
    ensures Goes(S4, Steps[4], S5)
    ensures Goes(S5, Steps[5], S6)
    ensures Goes(S6, Steps[6], S7)
  {
    assert [0][1..] == [];
  }

  lemma RequestEnters()
    ensures Goes(S7, Steps[7], S8)
  {
    assert forall r :: !Victim(S7, r);
  }

  lemma RequestAccepted()
    ensures Goes(S9, Steps[9], S10)
  {
    assert Steps[9] == Continue(2);
  }

  lemma RequestFinished()
    ensures Goes(S8, Steps[8], S9)
  {
    assert map[5 := Active(true, 2)] - {5} == map[];
    assert MarkFinished(S8.calls, 1, 5) == S9.calls;
  }

  lemma NothingBlocks(s: State)
    requires s.creations == 0 && forall r :: r in s.records ==> s.records[r].active == map[]
    ensures !Blocked(s, true)
  {
  }

  lemma BackgroundAsks()
    ensures Goes(S10, Steps[10], S11)
  {
    assert [] + [3] == [3];
    assert Next(S10, Ask(1, Background)).lines == S11.lines;
  }

  lemma BackgroundEntersSession()
    ensures Goes(S11, Steps[11], S12)
  {
    NothingBlocks(S11);
    assert forall r :: !Live(S11, r, 1);
    assert Enter(S11, 3, true).calls == S12.calls;
  }

  lemma BackgroundStores()
    ensures Goes(S12, Steps[12], S13)
  {
    assert Steps[12] == StoreRecord(3, true);
  }

  lemma BackgroundLeaves()
    ensures Goes(S13, Steps[13], S14)
  {
    assert [3][1..] == [];
    assert Leave(S13, 3, false).lines == S14.lines;
  }

  lemma BackgroundReady()
    ensures Goes(S14, Steps[14], S15)
  {
    assert Steps[14] == Lifecycle(4, MarkedReady);
  }

  lemma BackgroundEnters()
    ensures Goes(S15, BeginRequest(4, 6, true, true, [4]), S16)
  {
    NothingBlocks(S15);
    assert forall r :: Victim(S15, r) <==> r == 4;
  }

  lemma AskStep(i: nat)
    requires i < 2
    ensures Goes(States[i], Steps[i], States[i + 1])
  {
    hide Goes;
    if i == 0 { CreationAsks(); } else { CreationEnters(); }
  }

  lemma CreationStep(i: nat)
    requires 2 <= i < 7
    ensures Goes(States[i], Steps[i], States[i + 1])
  {
    hide Goes;
    if i < 4 { CreationClears(); } else { CreationStores(); }
  }

  lemma RequestStep(i: nat)
    requires 7 <= i < 10
    ensures Goes(States[i], Steps[i], States[i + 1])
  {
    hide Goes;
    if i == 7 { RequestEnters(); } else if i == 8 { RequestFinished(); } else { RequestAccepted(); }
  }

  lemma BackgroundStep(i: nat)
    requires 10 <= i < 13
    ensures Goes(States[i], Steps[i], States[i + 1])
  {
    hide Goes;
    if i == 10 { BackgroundAsks(); } else if i == 11 { BackgroundEntersSession(); } else { BackgroundStores(); }
  }

  lemma LastStep(i: nat)
    requires 13 <= i < 16
    ensures Goes(States[i], Steps[i], States[i + 1])
  {
    hide Goes;
    if i == 13 { BackgroundLeaves(); } else if i == 14 { BackgroundReady(); } else { BackgroundEnters(); }
  }

  lemma TheRun()
    ensures Run(States, Steps)
  {
    hide Enabled, Next;
    forall i: nat | i < |Steps| ensures Enabled(States[i], Steps[i]) && States[i + 1] == Next(States[i], Steps[i]) {
      if i < 2 { AskStep(i); } else if i < 7 { CreationStep(i); } else if i < 10 { RequestStep(i); }
      else if i < 13 { BackgroundStep(i); } else { LastStep(i); }
    }
  }

  /**
   The exclusive request is accepted although it was finished, and a background connection has an active request too.
   */
  lemma AcceptedAfterFinish()
    ensures Run(States, Steps) && States[10] == S10 && States[16] == S16
    ensures S10.calls[2].phase == Accepted && S10.calls[2].finished
    ensures S16.calls[2].phase == Accepted && S16.calls[2].kind.exclusive && BackgroundActive(S16, 4)
  {
    TheRun();
    hide Run;
    assert 6 in S16.records[4].active;
  }
}
