/** The reservation ledger and the operation journal. */
module ArtifactJournal {
  import opened Prelude

  // The operation journal and the reservation ledger of the artifact manager. A reservation's closure is a handle into the list
  // of leases; its `released` flag makes releasing twice harmless. Which task reserves, closes its operation and releases,
  // and when, is in ArtifactReservations.

  // ----- the ledger -----

  datatype Lease = Lease(runtimes: seq<nat>, released: bool)

  function Occurrences(runtimes: seq<nat>, r: nat): nat {
    if runtimes == [] then 0 else Occurrences(runtimes[..|runtimes| - 1], r) + if runtimes[|runtimes| - 1] == r then 1
      else 0
  }

  /** How often unreleased leases name a runtime. */
  function Held(leases: seq<Lease>, r: nat): nat {
    if leases == [] then 0
    else
      Held(leases[..|leases| - 1], r)
        + if leases[|leases| - 1].released then 0 else Occurrences(leases[|leases| - 1].runtimes, r)
  }

  predicate Covers(leases: seq<Lease>, r: nat) {
    exists h :: 0 <= h < |leases| && !leases[h].released && r in leases[h].runtimes
  }

  lemma {:induction false} OccursExactlyWhenNamed(runtimes: seq<nat>, r: nat)
    ensures Occurrences(runtimes, r) > 0 <==> r in runtimes
  {
    if runtimes != [] {
      OccursExactlyWhenNamed(runtimes[..|runtimes| - 1], r);
      assert runtimes == runtimes[..|runtimes| - 1] + [runtimes[|runtimes| - 1]];
    }
  }

  /** A runtime is held exactly when some unreleased lease covers it. */
  lemma {:induction false} HeldExactlyWhenCovered(leases: seq<Lease>, r: nat)
    ensures Held(leases, r) > 0 <==> Covers(leases, r)
  {
    if leases != [] {
      var init, last := leases[..|leases| - 1], leases[|leases| - 1];
      HeldExactlyWhenCovered(init, r);
      OccursExactlyWhenNamed(last.runtimes, r);
      if Covers(init, r) {
        var h :| 0 <= h < |init| && !init[h].released && r in init[h].runtimes;
        assert leases[h] == init[h];
      }
      if Covers(leases, r) {
        var h :| 0 <= h < |leases| && !leases[h].released && r in leases[h].runtimes;
        if h < |init| { assert init[h] == leases[h]; }
      }
    }
  }

  lemma {:induction false} HeldAfterRelease(leases: seq<Lease>, h: nat, r: nat)
    requires h < |leases| && !leases[h].released
    ensures Held(leases[h := leases[h].(released := true)], r) == Held(leases, r) - Occurrences(leases[h].runtimes, r)
    decreases |leases|
  {
    var leases' := leases[h := leases[h].(released := true)];
    var n := |leases| - 1;
    if h == n {
      assert leases'[..n] == leases[..n];
    } else {
      assert leases'[..n] == leases[..n][h := leases[h].(released := true)];
      HeldAfterRelease(leases[..n], h, r);
    }
  }

  /** The counts of a ledger: only positive ones are kept, and each is what the unreleased leases add up to. */
  ghost predicate Counts(counts: map<nat, nat>, leases: seq<Lease>) {
    forall r: nat :: CountOf(counts, r) == Held(leases, r) && (r in counts ==> counts[r] > 0)
  }

  function CountOf(counts: map<nat, nat>, r: nat): nat { if r in counts then counts[r] else 0 }

  /** The loop of `reserveRuntimeMutation`. */
  function Added(counts: map<nat, nat>, runtimes: seq<nat>): map<nat, nat> {
    if runtimes == [] then counts
    else
      var before, r := Added(counts, runtimes[..|runtimes| - 1]), runtimes[|runtimes| - 1];
      before[r := CountOf(before, r) + 1]
  }

  /** The loop of the closure it returns. */
  function Removed(counts: map<nat, nat>, runtimes: seq<nat>): map<nat, nat> {
    if runtimes == [] then counts
    else
      var before, r := Removed(counts, runtimes[..|runtimes| - 1]), runtimes[|runtimes| - 1];
      var count: int := if r in before then before[r] else 1;
      var remaining := count - 1;
      if remaining <= 0 then before - {r} else before[r := remaining]
  }

  lemma {:induction false} AddedCount(counts: map<nat, nat>, runtimes: seq<nat>, r: nat)
    requires r in counts ==> counts[r] > 0
    ensures CountOf(Added(counts, runtimes), r) == CountOf(counts, r) + Occurrences(runtimes, r)
    ensures r in Added(counts, runtimes) ==> Added(counts, runtimes)[r] > 0
  {
    if runtimes != [] { AddedCount(counts, runtimes[..|runtimes| - 1], r); }
  }

  lemma {:induction false} RemovedCount(counts: map<nat, nat>, runtimes: seq<nat>, r: nat)
    requires CountOf(counts, r) >= Occurrences(runtimes, r) && (r in counts ==> counts[r] > 0)
    ensures CountOf(Removed(counts, runtimes), r) == CountOf(counts, r) - Occurrences(runtimes, r)
    ensures r in Removed(counts, runtimes) ==> Removed(counts, runtimes)[r] > 0
  {
    if runtimes != [] { RemovedCount(counts, runtimes[..|runtimes| - 1], r); }
  }

  /** A reservation keeps the counts right. */
  lemma CountsAfterReserve(counts: map<nat, nat>, leases: seq<Lease>, runtimes: seq<nat>)
    requires Counts(counts, leases)
    ensures Counts(Added(counts, runtimes), leases + [Lease(runtimes, false)])
  {
    assert (leases + [Lease(runtimes, false)])[..|leases|] == leases;
    forall r: nat
      ensures CountOf(Added(counts, runtimes), r) == Held(leases + [Lease(runtimes, false)], r)
      ensures r in Added(counts, runtimes) ==> Added(counts, runtimes)[r] > 0
    {
      AddedCount(counts, runtimes, r);
    }
  }

  /** A first release keeps the counts right. */
  lemma CountsAfterRelease(counts: map<nat, nat>, leases: seq<Lease>, h: nat)
    requires Counts(counts, leases) && h < |leases| && !leases[h].released
    ensures Counts(Removed(counts, leases[h].runtimes), leases[h := leases[h].(released := true)])
  {
    forall r: nat
      ensures CountOf(Removed(counts, leases[h].runtimes), r) == Held(leases[h := leases[h].(released := true)], r)
      ensures r in Removed(counts, leases[h].runtimes) ==> Removed(counts, leases[h].runtimes)[r] > 0
    {
      HeldAfterRelease(leases, h, r);
      RemovedCount(counts, leases[h].runtimes, r);
    }
  }

  class Ledger {
    var counts: map<nat, nat>
    var leases: seq<Lease>

    ghost predicate Valid()
      reads this
    {
      Counts(counts, leases)
    }

    constructor ()
      ensures Valid() && leases == []
    {
      counts, leases := map[], [];
    }

    method Reserve(runtimes: seq<nat>) returns (h: nat)
      requires Valid()
      modifies this
      ensures Valid() && h == |old(leases)| && leases == old(leases) + [Lease(runtimes, false)]
      ensures counts == Added(old(counts), runtimes)
    {
      for i := 0 to |runtimes|
        invariant leases == old(leases) && counts == Added(old(counts), runtimes[..i])
      {
        assert runtimes[..i + 1][..i] == runtimes[..i];
        counts := counts[runtimes[i] := CountOf(counts, runtimes[i]) + 1];
      }
      assert runtimes[..|runtimes|] == runtimes;
      CountsAfterReserve(old(counts), leases, runtimes);
      h := |leases|;
      leases := leases + [Lease(runtimes, false)];
    }

    /** The closure that `reserveRuntimeMutation` returns; calling it again does nothing. */
    method Release(h: nat)
      requires Valid() && h < |leases|
      modifies this
      ensures Valid() && leases == old(leases)[h := old(leases)[h].(released := true)]
      ensures counts == if old(leases)[h].released then old(counts) else Removed(old(counts), old(leases)[h].runtimes)
    {
      if leases[h].released { assert leases[h := leases[h].(released := true)] == leases; return; }
      var runtimes := leases[h].runtimes;
      CountsAfterRelease(counts, leases, h);
      leases := leases[h := leases[h].(released := true)];
      for i := 0 to |runtimes|
        invariant leases == old(leases)[h := old(leases)[h].(released := true)]
            && counts == Removed(old(counts), runtimes[..i])
      {
        assert runtimes[..i + 1][..i] == runtimes[..i];
        var count: int := if runtimes[i] in counts then counts[runtimes[i]] else 1;
        var remaining := count - 1;
        counts := if remaining <= 0 then counts - {runtimes[i]} else counts[runtimes[i] := remaining];
      }
      assert runtimes[..|runtimes|] == runtimes;
    }

    /** `isRuntimeMutating`: exactly when an unreleased reservation covers the runtime. */
    method IsRuntimeMutating(r: nat) returns (b: bool)
      requires Valid()
      ensures b <==> Covers(leases, r)
    {
      HeldExactlyWhenCovered(leases, r);
      b := CountOf(counts, r) > 0;
    }
  }

  // ----- the journal -----

  datatype Status = Pending | Running | Succeeded | Failed | Interrupted

  predicate Open(s: Status) { s == Pending || s == Running }

  /** `admitted` is history: the operation got past the capacity check. */
  datatype Operation = Operation(status: Status, created: int, admitted: bool)

  function AdmittedOpen(ops: map<nat, Operation>): set<nat> {
    set id | id in ops && ops[id].admitted && Open(ops[id].status)
  }

  function OpenOthers(ops: map<nat, Operation>, id: nat): set<nat> {
    set x | x in ops && x != id && Open(ops[x].status)
  }

  /** `createOperation` */
  function Created(ops: map<nat, Operation>, id: nat, now: int): map<nat, Operation> {
    ops[id := Operation(Pending, now, false)]
  }

  predicate Refuses(ops: map<nat, Operation>, id: nat, maxPending: nat) {
    |OpenOthers(ops, id)| >= maxPending
  }

  /** `rejectAtCapacity` up to its first await. */
  function Decided(ops: map<nat, Operation>, id: nat, maxPending: nat): map<nat, Operation> {
    if id !in ops then ops
    else ops[id := if Refuses(ops, id, maxPending) then ops[id].(status := Failed) else ops[id].(admitted := true)]
  }

  /** The status of an operation changes; one that has been forgotten stays so. */
  function Moved(ops: map<nat, Operation>, id: nat, status: Status): map<nat, Operation> {
    if id in ops then ops[id := ops[id].(status := status)] else ops
  }

  lemma Fewer(a: set<nat>, b: set<nat>)
    requires a <= b
    ensures |a| <= |b|
  {
    assert b == a + (b - a);
  }

  lemma CreatedWithin(ops: map<nat, Operation>, id: nat, now: int, maxPending: nat)
    requires id !in ops && |AdmittedOpen(ops)| <= maxPending
    ensures |AdmittedOpen(Created(ops, id, now))| <= maxPending
  {
    assert AdmittedOpen(Created(ops, id, now)) == AdmittedOpen(ops);
  }

  /** The check lets an operation through only if the limit is kept. */
  lemma DecidedWithin(ops: map<nat, Operation>, id: nat, maxPending: nat)
    requires maxPending >= 1 && |AdmittedOpen(ops)| <= maxPending
    ensures |AdmittedOpen(Decided(ops, id, maxPending))| <= maxPending
  {
    var after := Decided(ops, id, maxPending);
    if id !in ops || Refuses(ops, id, maxPending) {
      Fewer(AdmittedOpen(after), AdmittedOpen(ops));
    } else {
      assert AdmittedOpen(after) - {id} <= OpenOthers(ops, id);
      Fewer(AdmittedOpen(after) - {id}, OpenOthers(ops, id));
    }
  }

  lemma MovedWithin(ops: map<nat, Operation>, id: nat, status: Status, maxPending: nat)
    requires |AdmittedOpen(ops)| <= maxPending && (id in ops && Open(status) ==> Open(ops[id].status))
    ensures |AdmittedOpen(Moved(ops, id, status))| <= maxPending
  {
    Fewer(AdmittedOpen(Moved(ops, id, status)), AdmittedOpen(ops));
  }

  lemma ForgottenWithin(ops: map<nat, Operation>, id: nat, maxPending: nat)
    requires |AdmittedOpen(ops)| <= maxPending
    ensures |AdmittedOpen(ops - {id})| <= maxPending
  {
    Fewer(AdmittedOpen(ops - {id}), AdmittedOpen(ops));
  }

  class Journal {
    const maxPending: nat
    const historyLimit: nat
    var operations: map<nat, Operation>

    ghost predicate Valid()
      reads this
    {
      maxPending >= 1 && historyLimit >= 1 && |AdmittedOpen(operations)| <= maxPending
    }

    constructor (maxPendingOperations: nat, history: nat)
      ensures Valid() && operations == map[]
      ensures maxPending == (if maxPendingOperations < 1 then 1 else maxPendingOperations)
      ensures historyLimit == (if history < 1 then 1 else history)
    {
      maxPending := if maxPendingOperations < 1 then 1 else maxPendingOperations;
      historyLimit := if history < 1 then 1 else history;
      operations := map[];
    }

    method Create(id: nat, now: int)
      requires Valid() && id !in operations
      modifies this`operations
      ensures Valid() && operations == Created(old(operations), id, now)
    {
      CreatedWithin(operations, id, now, maxPending);
      operations := operations[id := Operation(Pending, now, false)];
    }

    /** Refused exactly when as many other operations are open as may be; otherwise the operation is admitted. */
    method RejectAtCapacity(id: nat) returns (rejected: bool)
      requires Valid() && id in operations && operations[id].status == Pending
      modifies this`operations
      ensures Valid() && (rejected <==> |OpenOthers(old(operations), id)| >= maxPending)
      ensures operations == Decided(old(operations), id, maxPending)
      ensures rejected <==> operations[id].status == Failed
    {
      DecidedWithin(operations, id, maxPending);
      rejected := |OpenOthers(operations, id)| >= maxPending;
      operations := operations[id := if rejected then operations[id].(status := Failed) else operations[id].(admitted := true)];
    }

    /** `persistPending` could not write: the operation is deleted. */
    method Discard(id: nat)
      requires Valid()
      modifies this`operations
      ensures Valid() && operations == old(operations) - {id}
    {
      ForgottenWithin(operations, id, maxPending);
      operations := operations - {id};
    }

    /** The oldest of some operations. */
    method Oldest(ids: set<nat>) returns (id: nat)
      requires ids != {} && ids <= operations.Keys
      ensures id in ids && forall x :: x in ids ==> operations[id].created <= operations[x].created
    {
      id :| id in ids;
      var rest := ids - {id};
      while rest != {}
        invariant rest <= ids && id in ids && forall x :: x in ids - rest ==>
            operations[id].created <= operations[x].created
        decreases rest
      {
        var y :| y in rest;
        if operations[y].created < operations[id].created { id := y; }
        rest := rest - {y};
      }
    }

    /** `pruneHistory`: only closed operations go, oldest first, and only as many as the limit asks for. */
    method PruneHistory()
      requires Valid()
      modifies this`operations
      ensures Valid() && operations.Keys <= old(operations).Keys
      ensures forall id :: id in operations ==> operations[id] == old(operations)[id]
      ensures forall id :: id in old(operations) && id !in operations ==>
                !Open(old(operations)[id].status)
                && forall x :: x in operations && !Open(operations[x].status) ==>
                  old(operations)[id].created <= operations[x].created
      ensures |operations| <= historyLimit || forall id :: id in operations ==> Open(operations[id].status)
      ensures |old(operations)| <= historyLimit ==> operations == old(operations)
    {
      var closed := set id | id in operations && !Open(operations[id].status);
      while |operations| > historyLimit && closed != {}
        invariant Valid() && operations.Keys <= old(operations).Keys
        invariant closed == set id | id in operations && !Open(operations[id].status)
        invariant forall id :: id in operations ==> operations[id] == old(operations)[id]
        invariant forall id :: id in old(operations) && id !in operations ==>
                    !Open(old(operations)[id].status)
                    && forall x :: x in closed ==> old(operations)[id].created <= operations[x].created
        invariant |old(operations)| <= historyLimit ==> operations == old(operations)
        decreases closed
      {
        var id := Oldest(closed);
        Discard(id);
        closed := closed - {id};
      }
      if |operations| > historyLimit {
        forall id | id in operations ensures Open(operations[id].status) { assert id !in closed; }
      }
    }
  }
}
