/**
 The shared records of the allocation control plane as an object, with the methods that update them in place. Each method is
 one stretch of code between awaits and is proved to do what the corresponding function of `AllocationControl` says.
 */
module AllocationRegistry {
  import opened Prelude
  import opened AllocationControl

  ghost predicate Sorted(allocs: map<nat, Allocation>, order: seq<nat>) {
    (forall i :: 0 <= i < |order| ==> order[i] in allocs)
    && forall i, j :: 0 <= i < j < |order| ==> Earlier(allocs[order[i]], order[i], allocs[order[j]], order[j])
  }

  /** What is earlier than something earlier is earlier; of two different allocations one is the earlier. */
  lemma EarlierOrders(x: Allocation, i: nat, y: Allocation, j: nat, z: Allocation, k: nat)
    ensures Earlier(x, i, y, j) && Earlier(y, j, z, k) ==> Earlier(x, i, z, k)
    ensures i != j ==> Earlier(x, i, y, j) || Earlier(y, j, x, i)
  {
  }

  predicate InPlace(allocs: map<nat, Allocation>, order: seq<nat>, i: nat, j: nat)
    requires forall k :: 0 <= k < |order| ==> order[k] in allocs
  {
    i < j < |order| ==> Earlier(allocs[order[i]], order[i], allocs[order[j]], order[j])
  }

  lemma InsertedSorted(allocs: map<nat, Allocation>, order: seq<nat>, a: nat, at: nat)
    requires Sorted(allocs, order) && a in allocs && a !in order && at <= |order|
    requires forall i :: 0 <= i < at ==> Earlier(allocs[order[i]], order[i], allocs[a], a)
    requires at < |order| ==> !Earlier(allocs[order[at]], order[at], allocs[a], a)
    ensures Sorted(allocs, order[..at] + [a] + order[at..])
    ensures forall x :: x in order[..at] + [a] + order[at..] <==> x in order || x == a
  {
    hide Earlier;
    var longer := order[..at] + [a] + order[at..];
    forall x ensures x in longer <==> x in order || x == a { assert order == order[..at] + order[at..]; }
    forall k | 0 <= k < |longer| ensures longer[k] in allocs { assert longer[k] in longer; }
    forall i: nat, j: nat ensures InPlace(allocs, longer, i, j) {
      if i < j < |longer| { InsertedInPlace(allocs, order, a, at, i, j); }
    }
    forall i, j | 0 <= i < j < |longer| ensures Earlier(allocs[longer[i]], longer[i], allocs[longer[j]], longer[j]) {
      assert InPlace(allocs, longer, i, j);
    }
  }

  lemma InsertedInPlace(allocs: map<nat, Allocation>, order: seq<nat>, a: nat, at: nat, i: nat, j: nat)
    requires Sorted(allocs, order) && a in allocs && a !in order && at <= |order| && i < j <= |order|
    requires forall i :: 0 <= i < at ==> Earlier(allocs[order[i]], order[i], allocs[a], a)
    requires at < |order| ==> !Earlier(allocs[order[at]], order[at], allocs[a], a)
    ensures var x, y := (order[..at] + [a] + order[at..])[i], (order[..at] + [a] + order[at..])[j];
            x in allocs && y in allocs && Earlier(allocs[x], x, allocs[y], y)
  {
    hide Earlier;
    if i == at {
      assert order[at] in order;
      EarlierOrders(allocs[a], a, allocs[order[at]], order[at], allocs[order[j - 1]], order[j - 1]);
    }
  }

  class Control {
    const config: Config
    var allocs: map<nat, Allocation>
    var ops: map<nat, OpStatus>
    var chain: seq<Task>
    var threads: map<nat, Pc>
    var timer: bool
    var draining: bool
    var now: int
    var nextA: nat
    var nextO: nat
    ghost var missed: set<nat>

    ghost function Now(): State
      reads this
    {
      State(allocs, ops, chain, threads, timer, draining, now, nextA, nextO, missed)
    }

    constructor (c: Config)
      ensures Now() == Initial && config == c
    {
      config := c;
      allocs, ops, chain, threads := map[], map[], [], map[0 := Free];
      timer, draining, now, nextA, nextO, missed := false, false, 0, 0, 0, {};
    }

    // ----- looking through the allocations -----

    method HasWaitingAllocation() returns (b: bool)
      ensures b == HasWaiting(Now())
    {
      var rest := allocs.Keys;
      b := false;
      while rest != {}
        invariant rest <= allocs.Keys
        invariant b <==> exists a :: a in allocs.Keys - rest && allocs[a].status == Waiting
        decreases rest
      {
        var a :| a in rest;
        if allocs[a].status == Waiting { b := true; }
        rest := rest - {a};
      }
    }

    method HasAudioWaitingAllocation() returns (b: bool)
      ensures b == HasAudioWaiting(Now())
    {
      var rest := allocs.Keys;
      b := false;
      while rest != {}
        invariant rest <= allocs.Keys
        invariant b <==> exists a :: a in allocs.Keys - rest && allocs[a].status == Waiting && allocs[a].audio
        decreases rest
      {
        var a :| a in rest;
        if allocs[a].status == Waiting && allocs[a].audio { b := true; }
        rest := rest - {a};
      }
    }

    /** The list of victims that `preemptLowerPriorityConflicts` filters. */
    method VictimsOf(q: Request) returns (victims: seq<nat>)
      ensures forall b :: b in victims <==> Victim(config, Now(), q, b)
    {
      victims := [];
      if q.priority < config.foreground { return; }
      var rest := allocs.Keys;
      while rest != {}
        invariant rest <= allocs.Keys
        invariant forall b :: b in victims <==> b !in rest && Victim(config, Now(), q, b)
        decreases rest
      {
        var a :| a in rest;
        if Admitted(allocs[a].status) && allocs[a].priority < q.priority
           && Conflict(config, q.runtimes, allocs[a].runtimes, true) {
          victims := victims + [a];
        }
        rest := rest - {a};
      }
    }

    /** `prioritizeWaitingAllocations`: the waiters of one kind, higher priority first, then older, then by id. */
    method Prioritize(audio: bool) returns (order: seq<nat>)
      ensures Snapshot(Now(), audio, order)
    {
      order := [];
      var rest := allocs.Keys;
      while rest != {}
        invariant rest <= allocs.Keys
        invariant forall a :: a in order <==> a !in rest && WaiterOf(Now(), audio, a)
        invariant Sorted(allocs, order)
        decreases rest
      {
        var a :| a in rest;
        if allocs[a].status == Waiting && allocs[a].audio == audio { order := Insert(order, a); }
        rest := rest - {a};
      }
    }

    method Insert(order: seq<nat>, a: nat) returns (longer: seq<nat>)
      requires Sorted(allocs, order) && a in allocs && a !in order
      ensures Sorted(allocs, longer) && forall x :: x in longer <==> x in order || x == a
    {
      var at := 0;
      while at < |order| && Earlier(allocs[order[at]], order[at], allocs[a], a)
        invariant at <= |order| && forall i :: 0 <= i < at ==> Earlier(allocs[order[i]], order[i], allocs[a], a)
      {
        at := at + 1;
      }
      longer := order[..at] + [a] + order[at..];
      InsertedSorted(allocs, order, a, at);
    }

    // ----- promotions and timers -----

    method EnqueueWaitingPromotions()
      modifies this`chain, this`threads, this`missed
      ensures Now() == Enqueue(old(Now()))
    {
      chain, missed := chain + [Promote], Overlooked(Now());
      var audio := HasAudioWaitingAllocation();
      if audio && 1 !in threads { threads := threads[1 := Begin(true)]; }
    }

    method ScheduleWaitingPromotion()
      modifies this`timer, this`missed
      ensures Now() == ScheduleRetry(old(Now()))
    {
      if !draining && !timer { timer := HasWaitingAllocation(); }
      missed := if timer then {} else missed;
    }

    // ----- records -----

    /** `commitAllocationTerminal` */
    method CommitTerminal(a: nat, terminal: Status) returns (wasAdmitted: bool)
      requires a in allocs
      modifies this`allocs
      ensures Now() == SetStatus(old(Now()), a, terminal) && wasAdmitted == Admitted(old(allocs)[a].status)
    {
      wasAdmitted := Admitted(allocs[a].status);
      allocs := allocs[a := allocs[a].(status := terminal)];
    }

    /** `commitAllocationOperationTerminal` */
    method CommitOperationTerminal(o: Option<nat>, terminal: Status)
      modifies this`ops
      ensures Now() == if o.Some? && o.value in old(ops) && Open(old(ops)[o.value])
                       then SetOp(old(Now()), o, if terminal == Expired then TimedOut else Cancelled) else old(Now())
    {
      if o.Some? && o.value in ops && Open(ops[o.value]) {
        ops := ops[o.value := if terminal == Expired then TimedOut else Cancelled];
      }
    }

    /** `releaseAllocation` */
    method Release(a: nat, terminal: Status)
      modifies this
      ensures Now() == ReleaseOne(old(Now()), a, terminal)
    {
      if a !in allocs || allocs[a].status in {Released, Expired} { return; }
      var wasAdmitted := CommitTerminal(a, terminal);
      CommitOperationTerminal(allocs[a].op, terminal);
      EnqueueWaitingPromotions();
    }

    /** `preemptAllocation`: only a lower priority is preempted; what is over already counts as done. */
    method Preempt(a: nat, priority: int) returns (ok: bool)
      modifies this
      ensures ok <==> a in old(allocs)
                      && (old(allocs)[a].status in {Released, Expired} || old(allocs)[a].priority < priority)
      ensures Now() == if ok then ReleaseOne(old(Now()), a, Released) else old(Now())
    {
      if a !in allocs { return false; }
      if allocs[a].status in {Released, Expired} { return true; }
      if allocs[a].priority >= priority { return false; }
      Release(a, Released);
      ok := true;
    }

    /** `preemptLowerPriorityConflicts`: every victim is preempted, for all of them are of lower priority. */
    method PreemptLowerPriorityConflicts(q: Request) returns (ghost victims: seq<nat>)
      modifies this
      ensures (forall b :: b in victims <==> Victim(config, old(Now()), q, b))
          && Now() == ReleaseAll(old(Now()), victims)
    {
      var list := VictimsOf(q);
      victims := list;
      for i := 0 to |list|
        invariant ReleaseAll(Now(), list[i..]) == ReleaseAll(old(Now()), list)
        invariant forall b :: b in old(allocs) ==> b in allocs && allocs[b].priority == old(allocs)[b].priority
      {
        assert list[i..][0] == list[i] && list[i..][1..] == list[i + 1..];
        assert list[i] in list;
        ghost var before := Now();
        var ok := Preempt(list[i], q.priority);
        assert ok && Now() == ReleaseOne(before, list[i], Released);
        PrioritiesStay(before, list[i]);
      }
    }

    lemma PrioritiesStay(s: State, a: nat)
      ensures forall b :: b in s.allocs ==> ReleaseOne(s, a, Released).allocs[b].priority == s.allocs[b].priority
    {
    }

    method Renew(a: nat, ttl: int) returns (ok: bool)
      requires a in allocs && Active(allocs[a].status) ==> !Due(Now(), a)
      modifies this`allocs
      ensures ok <==> !draining && IsActive(old(Now()), a)
      ensures ok ==> AllocationControl.Enabled(config, old(Now()), AllocationControl.Renew(a, ttl))
                     && Now() == Next(config, old(Now()), AllocationControl.Renew(a, ttl))
      ensures !ok ==> Now() == old(Now())
    {
      if draining || a !in allocs || !Active(allocs[a].status) { return false; }
      allocs := allocs[a := allocs[a].(expiresAt := now + ttl)];
      ok := true;
    }

    method ExpireOne(a: nat)
      requires a in allocs && Active(allocs[a].status)
      modifies this
      ensures Now() == ReleaseOne(old(Now()), a, Expired)
      ensures allocs == old(allocs)[a := old(allocs)[a].(status := Expired)] && now == old(now) && Promote in chain
      ensures ops == TimedOutFor(old(ops), old(allocs)[a].op)
    {
      Release(a, Expired);
    }

    /** An operation that is still open times out. */
    function TimedOutFor(ops: map<nat, OpStatus>, o: Option<nat>): map<nat, OpStatus> {
      if o.Some? && o.value in ops && Open(ops[o.value]) then ops[o.value := TimedOut] else ops
    }

    predicate DueIn(allocs: map<nat, Allocation>, a: nat, now: int) {
      a in allocs && Active(allocs[a].status) && allocs[a].expiresAt <= now
    }

    /** The operations after these allocations, the due ones among which have expired. */
    ghost predicate OpsAfter(allocs: map<nat, Allocation>, before: map<nat, OpStatus>, after: map<nat, OpStatus>,
        done: set<nat>, now: int) {
      && after.Keys == before.Keys
      && (forall a :: a in done && DueIn(allocs, a, now) && allocs[a].op.Some? && allocs[a].op.value in after ==>
        !Open(after[allocs[a].op.value]))
      && (forall o :: o in before && after[o] != before[o] ==>
            Open(before[o]) && after[o] == TimedOut && exists a :: a in done && DueIn(allocs, a, now) && allocs[a].op == Some(o))
    }

    lemma OneMoreDone(allocs: map<nat, Allocation>, before: map<nat, OpStatus>, after: map<nat, OpStatus>,
        done: set<nat>, now: int, a: nat)
      requires OpsAfter(allocs, before, after, done, now) && a in allocs
      ensures var after' := if DueIn(allocs, a, now) then TimedOutFor(after, allocs[a].op) else after;
              OpsAfter(allocs, before, after', done + {a}, now)
    {
      var after' := if DueIn(allocs, a, now) then TimedOutFor(after, allocs[a].op) else after;
      forall o | o in before && after'[o] != before[o]
        ensures Open(before[o]) && after'[o] == TimedOut
                && exists x :: x in done + {a} && DueIn(allocs, x, now) && allocs[x].op == Some(o)
      {
        if after[o] != before[o] {
          var x :| x in done && DueIn(allocs, x, now) && allocs[x].op == Some(o);
          assert x in done + {a};
        } else {
          assert a in done + {a};
        }
      }
    }

    /**
     `expireDueAllocations`: exactly the active allocations that are due become expired, their open operations and no others
     time out, and a promotion is enqueued if there was one.
     */
    method ExpireDue()
      modifies this
      ensures allocs == map a | a in old(allocs) :: if DueIn(old(allocs), a, now)
          then old(allocs)[a].(status := Expired) else old(allocs)[a]
      ensures OpsAfter(old(allocs), old(ops), ops, old(allocs).Keys, now) && now == old(now)
      ensures (exists a :: DueIn(old(allocs), a, now)) ==> Promote in chain
      ensures forall a :: a in allocs && Active(allocs[a].status) ==> !Due(Now(), a)
    {
      var rest := allocs.Keys;
      while rest != {}
        invariant rest <= allocs.Keys == old(allocs).Keys && now == old(now)
        invariant forall a :: a in old(allocs) ==>
                    allocs[a] == if a !in rest && DueIn(old(allocs), a, now)
                                 then old(allocs)[a].(status := Expired) else old(allocs)[a]
        invariant OpsAfter(old(allocs), old(ops), ops, old(allocs).Keys - rest, now)
        invariant (exists a :: a !in rest && DueIn(old(allocs), a, now)) ==> Promote in chain
        decreases rest
      {
        var a :| a in rest;
        OneMoreDone(old(allocs), old(ops), ops, old(allocs).Keys - rest, now, a);
        assert old(allocs).Keys - rest + {a} == old(allocs).Keys - (rest - {a});
        if Active(allocs[a].status) && allocs[a].expiresAt <= now { ExpireOne(a); }
        rest := rest - {a};
      }
      assert old(allocs).Keys - rest == old(allocs).Keys;
    }

    /** The end of `AllocationStartupLifecycle.run`, up to the await in its finally block. */
    method FinishStartup(t: nat, outcome: Outcome)
      requires t in threads && threads[t].Starting?
      modifies this
      ensures Now() == StartupOver(old(Now()), t, outcome)
    {
      var a, o, rest := threads[t].a, threads[t].o, threads[t].rest;
      if a in allocs && Active(allocs[a].status) {
        if outcome == BecameReady {
          allocs := allocs[a := allocs[a].(status := Ready)];
          if o in ops { ops := ops[o := Succeeded]; }
        } else {
          allocs := allocs[a := allocs[a].(status := Failed)];
          if o in ops { ops := ops[o := if outcome == Threw then OpFailed else TimedOut]; }
        }
      }
      if !(a in allocs && Active(allocs[a].status)) {
        threads := threads[t := Cleaning(rest)];
      } else if rest == None {
        threads := threads[t := if t == 0 then Free else Ended];
      } else {
        threads := threads[t := Looping(rest.value)];
      }
    }
  }

  // ----- switch holds -----

  datatype Hold = Hold(runtime: nat, priority: int, until: nat)

  /** The holds that keep a foreground provider in its swap group for a while after its allocation ends. */
  class SwitchHolds {
    const config: Config
    var holds: map<nat, Hold>

    constructor (c: Config)
      ensures config == c && holds == map[]
    {
      config, holds := c, map[];
    }

    predicate Blocks(h: Hold, group: nat, runtimes: seq<nat>, priority: int, now: nat) {
      h.until > now && h.runtime !in runtimes && priority < h.priority
      && InGroup(runtimes, group)
    }

    /** One of the runtimes belongs to the swap group. */
    predicate InGroup(runtimes: seq<nat>, group: nat) {
      exists r :: r in runtimes && r in config.swapGroup && config.swapGroup[r] == group
    }

    /** The swap group is held for one of these runtimes, at least until then. */
    predicate HeldFor(group: nat, runtimes: seq<nat>, priority: int, until: int)
      reads this
    {
      group in holds && holds[group].until >= until && holds[group].priority == priority && holds[group].runtime in runtimes
    }

    /** `holdForegroundProviders`: a hold never ends earlier than it would have. */
    method HoldForegroundProviders(runtimes: seq<nat>, priority: int, duration: int, now: nat)
      modifies this
      ensures duration <= 0 ==> holds == old(holds)
      ensures duration > 0 ==> forall r :: r in runtimes && r in config.swapGroup ==>
          HeldFor(config.swapGroup[r], runtimes, priority, now + duration)
      ensures forall g :: g in old(holds) ==> g in holds && holds[g].until >= old(holds)[g].until
      ensures forall g :: g in holds && !InGroup(runtimes, g) ==> g in old(holds) && holds[g] == old(holds)[g]
    {
      if duration <= 0 { return; }
      var until: nat := now + duration;
      for i := 0 to |runtimes|
        invariant forall r :: r in runtimes[..i] && r in config.swapGroup ==>
            HeldFor(config.swapGroup[r], runtimes, priority, until)
        invariant forall g :: g in old(holds) ==> g in holds && holds[g].until >= old(holds)[g].until
        invariant forall g :: g in holds && !InGroup(runtimes[..i], g) ==> g in old(holds) && holds[g] == old(holds)[g]
      {
        var r := runtimes[i];
        assert runtimes[..i + 1] == runtimes[..i] + [r];
        if r in config.swapGroup {
          var g := config.swapGroup[r];
          var later := if g in holds && holds[g].until > until then holds[g].until else until;
          holds := holds[g := Hold(r, priority, later)];
        }
      }
    }

    /** The greatest end of the holds of these groups that are in the way. */
    ghost predicate LatestOf(holds: map<nat, Hold>, groups: set<nat>, runtimes: seq<nat>, priority: int, now: nat,
        until: nat)
      requires groups <= holds.Keys
    {
      && until > now
      && (exists g :: g in groups && Blocks(holds[g], g, runtimes, priority, now) && holds[g].until == until)
      && (forall g :: g in groups && Blocks(holds[g], g, runtimes, priority, now) ==> holds[g].until <= until)
    }

    /** `holdUntil`: the latest end of a hold in the way, if there is one; holds that are over are forgotten. */
    method HoldUntil(runtimes: seq<nat>, priority: int, now: nat) returns (until: Option<nat>)
      modifies this
      ensures until.None? <==> forall g :: g in old(holds) ==> !Blocks(old(holds)[g], g, runtimes, priority, now)
      ensures until.Some? ==> LatestOf(old(holds), old(holds).Keys, runtimes, priority, now, until.value)
      ensures holds == map g | g in old(holds) && old(holds)[g].until > now :: old(holds)[g]
    {
      until := None;
      var rest := holds.Keys;
      ghost var before := holds;
      while rest != {}
        invariant rest <= before.Keys && holds.Keys <= before.Keys && forall g :: g in holds ==> holds[g] == before[g]
        invariant forall g :: g in before ==> (g in holds <==> g in rest || before[g].until > now)
        invariant until.None? <==> forall g :: g in before.Keys - rest ==>
            !Blocks(before[g], g, runtimes, priority, now)
        invariant until.Some? ==> LatestOf(before, before.Keys - rest, runtimes, priority, now, until.value)
        decreases rest
      {
        var g :| g in rest;
        rest := rest - {g};
        var h := holds[g];
        if h.until <= now {
          holds := holds - {g};
        } else if Blocks(h, g, runtimes, priority, now) {
          until := Some(if until.Some? && until.value > h.until then until.value else h.until);
        }
      }
    }
  }
}
