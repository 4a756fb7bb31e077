/** The admitted allocations always fit: no runtime above its declared capacity, no node above its usable memory. */
module AllocationCapacity {
  import opened Prelude
  import opened AllocationControl
  import Agreement = AllocationAgreement

  // ----- declared memory as a sum -----

  function MemoryAt(c: Config, n: nat, r: nat): nat {
    if c.node(r) == n then c.memory(r) else 0
  }

  lemma {:induction false} MemoryWithout(c: Config, n: nat, xs: set<nat>, r: nat)
    requires r in xs
    ensures Memory(c, n, xs) == MemoryAt(c, n, r) + Memory(c, n, xs - {r})
    decreases |xs|
  {
    var q :| q in xs && Memory(c, n, xs) == MemoryAt(c, n, q) + Memory(c, n, xs - {q});
    if q != r {
      MemoryWithout(c, n, xs - {q}, r);
      MemoryWithout(c, n, xs - {r}, q);
      assert xs - {q} - {r} == xs - {r} - {q};
    }
  }

  lemma {:induction false} MemoryOfParts(c: Config, n: nat, xs: set<nat>, ys: set<nat>)
    ensures Memory(c, n, xs + ys) == Memory(c, n, xs) + Memory(c, n, ys - xs)
    decreases |ys - xs|
  {
    if ys - xs == {} {
      assert xs + ys == xs;
    } else {
      var r :| r in ys - xs;
      MemoryWithout(c, n, xs + ys, r);
      MemoryWithout(c, n, ys - xs, r);
      assert (xs + ys) - {r} == xs + (ys - {r}) && (ys - {r}) - xs == (ys - xs) - {r};
      MemoryOfParts(c, n, xs, ys - {r});
    }
  }

  lemma MemoryGrows(c: Config, n: nat, xs: set<nat>, ys: set<nat>)
    requires xs <= ys
    ensures Memory(c, n, xs) <= Memory(c, n, ys)
  {
    MemoryOfParts(c, n, xs, ys);
    assert xs + ys == ys;
  }

  // ----- the invariant -----

  ghost predicate WithinCapacity(c: Config, s: State) {
    forall r :: r in c.capacity && c.capacity[r] != 0 ==> |Users(s, r)| <= c.capacity[r]
  }

  ghost predicate WithinMemory(c: Config, s: State) {
    forall n: nat :: InUse(s) != {} ==> Memory(c, n, InUse(s) + c.resident) <= c.usable(n)
  }

  ghost predicate Feasible(c: Config, s: State) {
    WithinCapacity(c, s) && WithinMemory(c, s)
  }

  /** Whoever is admitted in `s'` was admitted in `s`, with the same runtimes. */
  ghost predicate AdmitsNoMore(s: State, s': State) {
    forall b :: b in s'.allocs && Admitted(s'.allocs[b].status) ==>
      b in s.allocs && Admitted(s.allocs[b].status) && s.allocs[b].runtimes == s'.allocs[b].runtimes
  }

  /** Feasibility is closed under removal. */
  lemma FewerStayFeasible(c: Config, s: State, s': State)
    requires Feasible(c, s) && AdmitsNoMore(s, s')
    ensures Feasible(c, s')
  {
    forall r | r in c.capacity && c.capacity[r] != 0 ensures |Users(s', r)| <= c.capacity[r] {
      Subset(Users(s', r), Users(s, r));
    }
    forall n: nat | InUse(s') != {} ensures Memory(c, n, InUse(s') + c.resident) <= c.usable(n) {
      assert InUse(s') <= InUse(s);
      MemoryGrows(c, n, InUse(s') + c.resident, InUse(s) + c.resident);
    }
  }

  lemma {:induction false} Subset<T>(xs: set<T>, ys: set<T>)
    requires xs <= ys
    ensures |xs| <= |ys|
    decreases xs
  {
    if xs != {} {
      var x :| x in xs;
      Subset(xs - {x}, ys - {x});
    }
  }

  /** `s'` admits what `s` admits and `a` besides. */
  ghost predicate AdmitsAlso(s: State, s': State, a: nat) {
    && (a !in s.allocs || !Admitted(s.allocs[a].status))
    && a in s'.allocs
    && forall b :: b in s'.allocs && b != a && Admitted(s'.allocs[b].status) ==>
         b in s.allocs && Admitted(s.allocs[b].status) && s.allocs[b].runtimes == s'.allocs[b].runtimes
  }

  lemma AdmissionKeepsCapacity(c: Config, s: State, s': State, a: nat, obs: Observation, r: nat)
    requires Feasible(c, s) && AdmitsAlso(s, s', a) && AdmissionOk(c, s, s'.allocs[a].runtimes, obs)
    requires r in c.capacity && c.capacity[r] != 0
    ensures |Users(s', r)| <= c.capacity[r]
  {
    if r in s'.allocs[a].runtimes {
      Subset(Users(s', r), Users(s, r) + {a});
    } else {
      Subset(Users(s', r), Users(s, r));
    }
  }

  lemma AdmissionKeepsMemory(c: Config, s: State, s': State, a: nat, obs: Observation, n: nat)
    requires AdmitsAlso(s, s', a) && AdmissionOk(c, s, s'.allocs[a].runtimes, obs)
    ensures Memory(c, n, InUse(s') + c.resident) <= c.usable(n)
  {
    var candidates := s'.allocs[a].runtimes;
    var committed := InUse(s) + c.resident + obs.committed;
    assert InUse(s') + c.resident <= committed + candidates;
    MemoryGrows(c, n, InUse(s') + c.resident, committed + candidates);
    MemoryOfParts(c, n, committed, candidates);
    assert Memory(c, n, committed) + Memory(c, n, candidates - committed) + obs.service(n) <= c.usable(n);
  }

  lemma AdmissionKeepsFeasible(c: Config, s: State, s': State, a: nat, obs: Observation)
    requires Feasible(c, s) && AdmitsAlso(s, s', a) && AdmissionOk(c, s, s'.allocs[a].runtimes, obs)
    ensures Feasible(c, s')
  {
    hide AdmissionOk, AdmitsAlso, Users, InUse, Memory;
    forall r: nat | r in c.capacity && c.capacity[r] != 0 ensures |Users(s', r)| <= c.capacity[r] {
      AdmissionKeepsCapacity(c, s, s', a, obs, r);
    }
    forall n: nat ensures Memory(c, n, InUse(s') + c.resident) <= c.usable(n) {
      AdmissionKeepsMemory(c, s, s', a, obs, n);
    }
  }

  // ----- the steps -----

  lemma {:induction false} ReleaseAllAdmitsNoMore(s: State, victims: seq<nat>)
    ensures AdmitsNoMore(s, ReleaseAll(s, victims))
    decreases |victims|
  {
    if victims != [] {
      ReleaseAdmitsNoMore(s, victims[0], Released);
      ReleaseAllAdmitsNoMore(ReleaseOne(s, victims[0], Released), victims[1..]);
    }
  }

  lemma ReleaseAdmitsNoMore(s: State, a: nat, terminal: Status)
    requires terminal in {Released, Expired}
    ensures AdmitsNoMore(s, ReleaseOne(s, a, terminal))
  {
    assert a in s.allocs ==> !Admitted(ReleaseOne(s, a, terminal).allocs[a].status);
  }

  lemma RequestFeasible(c: Config, s: State, q: Request, w: Circumstance, victims: seq<nat>)
    requires Agreement.Inv(s) && Feasible(c, s)
    ensures Feasible(c, Create(c, s, q, w, victims))
  {
    var conflicted := ConflictsWithAdmitted(c, s, q.runtimes);
    var s1 := ReleaseAll(s, victims);
    ReleaseAllAdmitsNoMore(s, victims);
    FewerStayFeasible(c, s, s1);
    Agreement.ReleaseAllInv(s, victims);
    var waiting := PlansToWait(c, s1, q, w, conflicted);
    if !PlanRejects(c, s1, q, w, conflicted) {
      CommitFeasible(c, s1, q, w, waiting);
    }
  }

  lemma CommitAllocs(s: State, q: Request, w: Circumstance, waiting: bool)
    ensures Commit(s, q, w, waiting).allocs == s.allocs[s.nextA := NewAllocation(s, q, w, waiting)]
  {
  }

  lemma CommitFeasible(c: Config, s: State, q: Request, w: Circumstance, waiting: bool)
    requires Agreement.Inv(s) && Feasible(c, s)
    requires waiting || AdmissionOk(c, s, q.runtimes, w.obs)
    ensures Feasible(c, Commit(s, q, w, waiting))
  {
    hide Feasible, Commit, AdmissionOk;
    assert Agreement.GoodAlloc(s, s.nextA);
    CommitAllocs(s, q, w, waiting);
    if waiting {
      assert AdmitsNoMore(s, Commit(s, q, w, waiting));
      FewerStayFeasible(c, s, Commit(s, q, w, waiting));
    } else {
      AdmissionKeepsFeasible(c, s, Commit(s, q, w, waiting), s.nextA, w.obs);
    }
  }

  lemma LaunchAdmitsNoMore(s: State, t: nat, a: nat, o: nat, rest: Option<Batch>, protected: bool)
    ensures AdmitsNoMore(s, LaunchNow(s, t, a, o, rest, protected))
  {
    var s' := LaunchNow(s, t, a, o, rest, protected);
    if protected {
      ReleaseAdmitsNoMore(s, a, Released);
      assert s'.allocs == ReleaseOne(s, a, Released).allocs;
    } else if IsActive(s, a) {
      assert s'.allocs == s.allocs[a := s.allocs[a].(slot := OnThread(t))];
    } else {
      assert s'.allocs == s.allocs;
    }
  }

  lemma PromotedAtOnce(s: State, t: nat, a: nat, batch: Batch, look: Look)
    requires a in s.allocs && s.allocs[a].status == Waiting
    requires (s.allocs[a].existingOnly && look.hot) || s.allocs[a].op == None || s.allocs[a].op.value !in s.ops
    ensures var s' := Promoted(s, t, a, batch, look);
            AdmitsAlso(s, s', a) && s'.allocs[a].runtimes == s.allocs[a].runtimes
  {
    var status := if s.allocs[a].existingOnly && look.hot then Ready else Failed;
    assert Promoted(s, t, a, batch, look).allocs == s.allocs[a := s.allocs[a].(status := status)];
  }

  lemma ThenNoMore(s: State, s1: State, s': State, a: nat)
    requires a in s.allocs && s.allocs[a].status == Waiting && a in s'.allocs
    requires s1.allocs == s.allocs[a := s.allocs[a].(status := Pending)] && AdmitsNoMore(s1, s')
    ensures AdmitsAlso(s, s', a)
  {
  }

  lemma PromotedLaunches(s: State, t: nat, a: nat, o: nat, batch: Batch, look: Look)
    requires a in s.allocs && !(s.allocs[a].existingOnly && look.hot) && s.allocs[a].op == Some(o) && o in s.ops
    ensures Promoted(s, t, a, batch, look) == LaunchNow(SetStatus(s, a, Pending), t, a, o, Some(batch), look.protected)
  {
    hide LaunchNow;
  }

  /** A waiter promotion admits is the only one it admits. */
  lemma {:induction false} PromotedAdmitsAlso(s: State, t: nat, a: nat, batch: Batch, look: Look)
    requires a in s.allocs && s.allocs[a].status == Waiting
    ensures var s' := Promoted(s, t, a, batch, look);
            AdmitsAlso(s, s', a) && s'.allocs[a].runtimes == s.allocs[a].runtimes
  {
    hide Promoted, LaunchNow, AdmitsAlso, AdmitsNoMore;
    var x := s.allocs[a];
    if (x.existingOnly && look.hot) || x.op == None || x.op.value !in s.ops {
      PromotedAtOnce(s, t, a, batch, look);
    } else {
      var s1 := SetStatus(s, a, Pending);
      LaunchAdmitsNoMore(s1, t, a, x.op.value, Some(batch), look.protected);
      LaunchKeeps(s1, t, a, x.op.value, Some(batch), look.protected);
      PromotedLaunches(s, t, a, x.op.value, batch, look);
      ThenNoMore(s, s1, Promoted(s, t, a, batch, look), a);
    }
  }

  lemma LaunchKeeps(s: State, t: nat, a: nat, o: nat, rest: Option<Batch>, protected: bool)
    requires a in s.allocs
    ensures var s' := LaunchNow(s, t, a, o, rest, protected);
            a in s'.allocs && s'.allocs[a].runtimes == s.allocs[a].runtimes
  {
  }

  lemma {:induction false} VisitFeasible(c: Config, s: State, t: nat, look: Look)
    requires Feasible(c, s) && Enabled(c, s, Visit(t, look))
    ensures Feasible(c, Next(c, s, Visit(t, look)))
  {
    var batch, s' := s.threads[t].batch, Next(c, s, Visit(t, look));
    var a, rest := batch.todo[0], batch.(todo := batch.todo[1..]);
    if a in s.allocs && s.allocs[a].status == Waiting && !Due(s, a) && Decide(c, s, s.allocs[a], look) == Admit {
      PromotedAdmitsAlso(s, t, a, rest, look);
      AdmissionKeepsFeasible(c, s, s', a, look.obs);
    } else {
      assert s'.allocs == s.allocs;
      FewerStayFeasible(c, s, s');
    }
  }

  lemma StartupOverAllocs(s: State, t: nat, outcome: Outcome)
    requires t in s.threads && s.threads[t].Starting?
    ensures var a := s.threads[t].a;
            StartupOver(s, t, outcome).allocs
            == if !IsActive(s, a) then s.allocs
               else s.allocs[a := s.allocs[a].(status := if outcome == BecameReady then Ready else Failed)]
  {
  }

  lemma StartupOverFeasible(c: Config, s: State, t: nat, outcome: Outcome)
    requires Agreement.Inv(s) && Feasible(c, s) && t in s.threads && s.threads[t].Starting?
    ensures Feasible(c, StartupOver(s, t, outcome))
  {
    assert Agreement.GoodThread(s, t);
    hide Feasible, StartupOver;
    StartupOverAllocs(s, t, outcome);
    assert AdmitsNoMore(s, StartupOver(s, t, outcome));
    FewerStayFeasible(c, s, StartupOver(s, t, outcome));
  }

  lemma StepFeasible(c: Config, s: State, e: Step)
    requires Agreement.Inv(s) && Feasible(c, s) && Enabled(c, s, e)
    ensures Feasible(c, Next(c, s, e))
  {
    if e.Request_? {
      RequestFeasible(c, s, e.q, e.w, e.victims);
    } else if e.Visit? {
      VisitFeasible(c, s, e.t, e.look);
    } else if e.StartupDone? {
      StartupOverFeasible(c, s, e.t, e.outcome);
    } else {
      OtherStepsAdmitNoMore(c, s, e);
      FewerStayFeasible(c, s, Next(c, s, e));
    }
  }

  lemma OtherStepsAdmitNoMore(c: Config, s: State, e: Step)
    requires Enabled(c, s, e) && !e.Request_? && !e.Visit? && !e.StartupDone?
    ensures AdmitsNoMore(s, Next(c, s, e))
  {
    if e.Release? {
      ReleaseAdmitsNoMore(s, e.a, Released);
    } else if e.Expire? {
      ReleaseAdmitsNoMore(s, e.a, Expired);
    } else if e.Drain? {
      ReleaseAllAdmitsNoMore(s.(draining := true, timer := false), e.victims);
    } else if e.Dequeue? {
      if s.chain[0].Startup? {
        LaunchAdmitsNoMore(s.(chain := s.chain[1..]), 0, s.chain[0].a, s.chain[0].o, None, e.protected);
      }
    } else if e.LaunchAudio? {
      LaunchAdmitsNoMore(s, e.t, s.threads[e.t].a, s.threads[e.t].o, None, e.protected);
    } else if !e.Renew? && !e.Prune? {
      Agreement.KeepsRecords(c, s, e);
    }
  }

}
