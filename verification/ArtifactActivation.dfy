/** Activation of artifacts with rollback. */
module ArtifactActivation {
  import opened Prelude

  // Activation of several staged artifacts for one runtime, with rollback: `activateStagedRuntime`, `activateAll`
  // and `restorePreviousRuntime` of `ArtifactManager` over the activation records of `LocalArtifactStore`.
  //
  // A version is the content an artifact's target points at. The environment (which call fails, when the abort
  // signal is seen) is a parameter, so a statement about every `Faults` is one about every failure point. The store's
  // own activate and rollback are taken to happen completely or not at all.

  datatype Item = Item(id: nat, version: nat)

  /** What the store wrote down when it activated an artifact: what it put in place, and what was there before. */
  datatype Record = Record(activated: nat, previous: Option<nat>)

  datatype ActivateFault = Works | FailsEarly | FailsLate

  datatype Status = Unknown | Cold | Starting | Hot | Busy | Stopping | Failed

  predicate WasLive(status: Status) {
    status in {Hot, Busy, Starting}
  }

  predicate StopsFirst(status: Status) {
    status !in {Unknown, Cold, Failed}
  }

  /** The steps that follow a complete activation, in order; at most one of them is the first to fail. */
  datatype Stage = AbortBeforeStart | Start | AbortBeforeVerify | Verify | OnActivated

  datatype Faults = Faults(
    abortAtEntry: bool,
    stop: bool,
    abort: nat -> bool,              // the signal is seen before item i
    activate: nat -> ActivateFault,  // of item i
    rollback: nat -> bool,           // of item i
    sink: bool,                      // the event sink throws
    stage: Option<Stage>,
    restart: bool)                   // restarting the previous runtime

  datatype Code =
    | Cancelled | StopFailed | ActivateFailed | SinkFailed | StageFailed(stage: Stage) | RestartFailed | RollbackFailed

  datatype Store = Store(active: map<nat, nat>, records: map<nat, Record>)

  function Get(m: map<nat, nat>, id: nat): Option<nat> {
    if id in m then Some(m[id]) else None
  }

  function Put(m: map<nat, nat>, id: nat, v: Option<nat>): map<nat, nat> {
    match v
    case Some(version) => m[id := version]
    case None => m - {id}
  }

  // ----- the store -----

  function Activated(s: Store, item: Item): Store {
    Store(s.active[item.id := item.version], s.records[item.id := Record(item.version, Get(s.active, item.id))])
  }

  /** A late failure puts the target back and deletes the record, an earlier activation's record included. */
  function NotActivated(s: Store, item: Item, fault: ActivateFault): Store {
    if fault == FailsLate then s.(records := s.records - {item.id}) else s
  }

  /** Rollback refuses without a record, and when the target is not what the record put there. */
  predicate CanRollback(s: Store, id: nat) {
    id in s.records && (id in s.active ==> s.active[id] == s.records[id].activated)
  }

  function RolledBack(s: Store, id: nat): Store
    requires CanRollback(s, id)
  {
    s.(active := Put(s.active, id, s.records[id].previous))
  }

  // ----- the transaction -----

  datatype Activation = Activation(store: Store, error: Option<Code>, done: nat)

  function ActivateFrom(s: Store, items: seq<Item>, n: nat, f: Faults): Activation
    requires n <= |items|
    decreases |items| - n
  {
    if n == |items| then Activation(s, None, n)
    else if f.abort(n) then Activation(s, Some(Cancelled), n)
    else if f.activate(n) != Works then Activation(NotActivated(s, items[n], f.activate(n)), Some(ActivateFailed), n)
    else ActivateFrom(Activated(s, items[n]), items, n + 1, f)
  }

  datatype Undo = Undo(store: Store, failed: bool)

  predicate Undoes(s: Store, items: seq<Item>, i: nat, f: Faults)
    requires i < |items|
  {
    !f.rollback(i) && CanRollback(s, items[i].id)
  }

  /** `activateAll` on its way out: every rollback is tried, the last item first. */
  function UndoEach(s: Store, items: seq<Item>, n: nat, f: Faults): Undo
    requires n <= |items|
    decreases n
  {
    if n == 0 then Undo(s, false)
    else if Undoes(s, items, n - 1, f) then UndoEach(RolledBack(s, items[n - 1].id), items, n - 1, f)
    else Undo(UndoEach(s, items, n - 1, f).store, true)
  }

  /** `restorePreviousRuntime`: the first rollback that fails ends it. */
  function UndoUntilFailure(s: Store, items: seq<Item>, n: nat, f: Faults): Undo
    requires n <= |items|
    decreases n
  {
    if n == 0 then Undo(s, false)
    else if Undoes(s, items, n - 1, f) then UndoUntilFailure(RolledBack(s, items[n - 1].id), items, n - 1, f)
    else Undo(s, true)
  }

  datatype Result = Result(store: Store, error: Option<Code>)

  /** `activateAll` */
  function ActivatedAll(s: Store, items: seq<Item>, f: Faults): Result {
    var a := ActivateFrom(s, items, 0, f);
    if a.error != None then
      var u := UndoEach(a.store, items, if a.done <= |items| then a.done else 0, f);
      Result(u.store, Some(if u.failed then RollbackFailed else a.error.value))
    else if f.sink then Result(a.store, Some(SinkFailed))
    else Result(a.store, None)
  }

  /** `activateStagedRuntime` */
  function Deployed(s: Store, items: seq<Item>, status: Status, f: Faults): Result {
    if f.abortAtEntry then Result(s, Some(Cancelled))
    else if StopsFirst(status) && f.stop then Result(s, Some(StopFailed))
    else
      var r := ActivatedAll(s, items, f);
      if r.error != None then
        if WasLive(status) && r.error.value != RollbackFailed
          && f.restart then Result(r.store, Some(RestartFailed)) else r
      else if f.stage == None then r
      else
        var u := UndoUntilFailure(r.store, items, |items|, f);
        Result(u.store, Some(if u.failed || (WasLive(status) && f.restart) then RollbackFailed else StageFailed(f.stage.value)))
  }

  // ----- what an activation has done after n items -----

  ghost predicate DistinctIds(items: seq<Item>) {
    forall i, j :: 0 <= i < j < |items| ==> items[i].id != items[j].id
  }

  /** `id` is the id of one of the first `n` items. */
  ghost predicate Among(items: seq<Item>, n: nat, id: nat) {
    exists i :: 0 <= i < n <= |items| && items[i].id == id
  }

  /** Items `0..n` are active in `t`, and their records in `t` tell what was there in `s`. */
  ghost predicate Recorded(s: Store, t: Store, items: seq<Item>, n: nat) {
    && n <= |items|
    && forall i :: 0 <= i < n ==>
         && Get(t.active, items[i].id) == Some(items[i].version)
         && items[i].id in t.records
         && t.records[items[i].id] == Record(items[i].version, Get(s.active, items[i].id))
  }

  /** Outside the first `n` items nothing differs. */
  ghost predicate SameElsewhere(s: Store, t: Store, items: seq<Item>, n: nat) {
    forall id :: !Among(items, n, id) ==> Get(t.active, id) == Get(s.active, id)
  }

  lemma {:induction false} ActivateFromApplies(s: Store, t: Store, items: seq<Item>, n: nat, f: Faults)
    requires DistinctIds(items) && Recorded(s, t, items, n) && SameElsewhere(s, t, items, n)
    ensures var a := ActivateFrom(t, items, n, f);
            && n <= a.done <= |items| && Recorded(s, a.store, items, a.done) && SameElsewhere(s, a.store, items, a.done)
            && (a.error == None ==> a.done == |items|)
            && a.error != Some(RollbackFailed)
    decreases |items| - n
  {
    if n < |items| && !f.abort(n) {
      assert !Among(items, n, items[n].id);
      if f.activate(n) == Works {
        assert forall id :: !Among(items, n + 1, id) ==> id != items[n].id && !Among(items, n, id);
        ActivateFromApplies(s, Activated(t, items[n]), items, n + 1, f);
      }
    }
  }

  /** What each of the first `n` items points at after a rollback that failed exactly for the items in `stuck`. */
  ghost predicate UndoneExcept(s: Store, t: Store, u: Store, items: seq<Item>, n: nat, stuck: nat -> bool) {
    && n <= |items|
    && (forall i :: 0 <= i < n ==>
          Get(u.active, items[i].id) == if stuck(i) then Some(items[i].version) else Get(s.active, items[i].id))
    && (forall id :: !Among(items, n, id) ==> Get(u.active, id) == Get(t.active, id))
  }

  /** Rolling back the last recorded item succeeds and puts back exactly that item. */
  lemma LastRollback(s: Store, t: Store, items: seq<Item>, n: nat)
    requires DistinctIds(items) && Recorded(s, t, items, n) && n > 0
    ensures CanRollback(t, items[n - 1].id)
    ensures var t' := RolledBack(t, items[n - 1].id);
            && Recorded(s, t', items, n - 1)
            && Get(t'.active, items[n - 1].id) == Get(s.active, items[n - 1].id)
            && forall id :: id != items[n - 1].id ==> Get(t'.active, id) == Get(t.active, id)
  {
    assert items[n - 1].id in t.records;
  }

  lemma OneMoreUndone(s: Store, t: Store, t': Store, u: Store, items: seq<Item>, n: nat, stuck: nat -> bool)
    requires 0 < n <= |items| && DistinctIds(items) && UndoneExcept(s, t', u, items, n - 1, stuck)
    requires Get(t'.active, items[n - 1].id) == if stuck(n - 1) then Some(items[n - 1].version)
        else Get(s.active, items[n - 1].id)
    requires forall id :: id != items[n - 1].id ==> Get(t'.active, id) == Get(t.active, id)
    ensures UndoneExcept(s, t, u, items, n, stuck)
  {
    assert !Among(items, n - 1, items[n - 1].id);
    assert forall id :: !Among(items, n, id) ==> id != items[n - 1].id && !Among(items, n - 1, id);
  }

  lemma {:induction false} UndoEachPutsBack(s: Store, t: Store, items: seq<Item>, n: nat, f: Faults)
    requires DistinctIds(items) && Recorded(s, t, items, n)
    ensures UndoneExcept(s, t, UndoEach(t, items, n, f).store, items, n, f.rollback)
    decreases n
  {
    if n > 0 {
      LastRollback(s, t, items, n);
      hide UndoneExcept, DistinctIds, RolledBack, CanRollback;
      var t' := if f.rollback(n - 1) then t else RolledBack(t, items[n - 1].id);
      UndoEachPutsBack(s, t', items, n - 1, f);
      OneMoreUndone(s, t, t', UndoEach(t, items, n, f).store, items, n, f.rollback);
    }
  }

  lemma {:induction false} UndoEachFails(s: Store, t: Store, items: seq<Item>, n: nat, f: Faults)
    requires DistinctIds(items) && Recorded(s, t, items, n)
    ensures UndoEach(t, items, n, f).failed <==> exists i :: 0 <= i < n && f.rollback(i)
    decreases n
  {
    if n > 0 {
      LastRollback(s, t, items, n);
      hide DistinctIds, RolledBack, CanRollback;
      UndoEachFails(s, if f.rollback(n - 1) then t else RolledBack(t, items[n - 1].id), items, n - 1, f);
    }
  }

  /** Rolling back each item puts back exactly those whose own rollback works, and fails if one did not. */
  lemma {:induction false} UndoEachRestores(s: Store, t: Store, items: seq<Item>, n: nat, f: Faults)
    requires DistinctIds(items) && Recorded(s, t, items, n)
    ensures var u := UndoEach(t, items, n, f);
            && UndoneExcept(s, t, u.store, items, n, f.rollback)
            && (u.failed <==> exists i :: 0 <= i < n && f.rollback(i))
  {
    hide UndoneExcept, UndoEach;
    UndoEachPutsBack(s, t, items, n, f);
    UndoEachFails(s, t, items, n, f);
  }

  /** The items from `k` on are back, and if any is not it is because rollback failed on the item before `k`. */
  lemma {:induction false} UndoUntilFailureRestores(s: Store, t: Store, items: seq<Item>, n: nat,
      f: Faults) returns (k: nat)
    requires DistinctIds(items) && Recorded(s, t, items, n)
    ensures var u := UndoUntilFailure(t, items, n, f);
            && k <= n && UndoneExcept(s, t, u.store, items, n, i => i < k)
            && (u.failed <==> k > 0) && (k > 0 ==> f.rollback(k - 1))
    decreases n
  {
    if n == 0 || f.rollback(n - 1) {
      return n;
    }
    LastRollback(s, t, items, n);
    hide UndoneExcept, DistinctIds, RolledBack, CanRollback;
    var t' := RolledBack(t, items[n - 1].id);
    k := UndoUntilFailureRestores(s, t', items, n - 1, f);
    OneMoreUndone(s, t, t', UndoUntilFailure(t, items, n, f).store, items, n, i => i < k);
  }

  // ----- all or nothing -----

  ghost predicate AllActive(s: Store, t: Store, items: seq<Item>) {
    && (forall i :: 0 <= i < |items| ==> Get(t.active, items[i].id) == Some(items[i].version))
    && SameElsewhere(s, t, items, |items|)
  }

  lemma SameActive(s: Store, t: Store)
    requires forall id :: Get(t.active, id) == Get(s.active, id)
    ensures t.active == s.active
  {
    forall id ensures id in t.active <==> id in s.active {
      assert Get(t.active, id) == Get(s.active, id);
    }
    forall id | id in t.active ensures t.active[id] == s.active[id] {
      assert Get(t.active, id) == Get(s.active, id);
    }
  }

  /** The sink's exception escapes after everything was activated and before the code notes that it was. */
  predicate SinkReached(s: Store, items: seq<Item>, status: Status, f: Faults) {
    f.sink && !f.abortAtEntry && !(StopsFirst(status) && f.stop) && ActivateFrom(s, items, 0, f).error == None
  }

  lemma ActivateAllOutcome(s: Store, items: seq<Item>, f: Faults)
    requires DistinctIds(items)
    ensures var r, a := ActivatedAll(s, items, f), ActivateFrom(s, items, 0, f);
            && (a.error == None ==> AllActive(s, r.store, items) && Recorded(s, r.store, items, |items|)
                                    && r.error == if f.sink then Some(SinkFailed) else None)
            && (a.error != None && r.error != Some(RollbackFailed) ==> r.error == a.error && r.store.active == s.active)
            && (a.error != None && r.error == Some(RollbackFailed) ==> exists i :: 0 <= i < a.done && f.rollback(i))
            && (a.error != None ==> r.error != None && UndoneExcept(s, a.store, r.store, items, a.done, f.rollback))
  {
    ActivateFromApplies(s, s, items, 0, f);
    var a := ActivateFrom(s, items, 0, f);
    if a.error != None {
      UndoEachRestores(s, a.store, items, a.done, f);
      var r := ActivatedAll(s, items, f);
      if r.error != Some(RollbackFailed) {
        forall id ensures Get(r.store.active, id) == Get(s.active, id) {
          if Among(items, a.done, id) {
            var i :| 0 <= i < a.done && items[i].id == id;
          }
        }
        SameActive(s, r.store);
      }
    }
  }

  /**
   For distinct artifacts, at every failure or abort point: success means that every staged artifact is active and
   nothing else changed; an error other than `activation_rollback_failed` means that the active targets are those at
   entry, unless the event sink threw, and then they are all active.
   */
  lemma AllOrNothing(s: Store, items: seq<Item>, status: Status, f: Faults)
    requires DistinctIds(items)
    ensures var r := Deployed(s, items, status, f);
            && (r.error == None ==> AllActive(s, r.store, items))
            && (r.error != None && r.error != Some(RollbackFailed) ==>
                  if SinkReached(s, items, status, f) then AllActive(s, r.store, items) else r.store.active == s.active)
  {
    ActivateAllOutcome(s, items, f);
    var r := ActivatedAll(s, items, f);
    if !f.abortAtEntry && !(StopsFirst(status) && f.stop) && r.error == None && f.stage != None {
      var k := UndoUntilFailureRestores(s, r.store, items, |items|, f);
      var u := UndoUntilFailure(r.store, items, |items|, f);
      if !u.failed {
        forall id ensures Get(u.store.active, id) == Get(s.active, id) {
          if Among(items, |items|, id) {
            var i :| 0 <= i < |items| && items[i].id == id;
          }
        }
        SameActive(s, u.store);
      }
    }
  }

  /** Even `activation_rollback_failed` leaves no artifact in a third state: each is at its old or its new version. */
  lemma NeverInBetween(s: Store, items: seq<Item>, status: Status, f: Faults, id: nat)
    requires DistinctIds(items)
    ensures var v := Get(Deployed(s, items, status, f).store.active, id);
            v == Get(s.active, id) || exists i :: 0 <= i < |items| && items[i].id == id && v == Some(items[i].version)
  {
    ActivateAllOutcome(s, items, f);
    ActivateFromApplies(s, s, items, 0, f);
    var r, a := ActivatedAll(s, items, f), ActivateFrom(s, items, 0, f);
    if r.error == None && f.stage != None {
      var k := UndoUntilFailureRestores(s, r.store, items, |items|, f);
    }
    if Among(items, a.done, id) {
      var i :| 0 <= i < a.done && items[i].id == id;
    } else {
      assert Get(a.store.active, id) == Get(s.active, id);
    }
  }

  // ----- exactly when: the list must not repeat an artifact -----

  /** Every failure but `activation_rollback_failed` leaves the active targets alone, whatever the environment does. */
  ghost predicate Atomic(s: Store, items: seq<Item>) {
    forall status: Status, f: Faults :: !f.sink ==>
      var r := Deployed(s, items, status, f);
      r.error != None && r.error != Some(RollbackFailed) ==> r.store.active == s.active
  }

  /** What `changedArtifacts` hands over: one version per artifact, and no artifact active at it yet. */
  ghost predicate Changed(s: Store, items: seq<Item>) {
    && (forall i, j :: 0 <= i < j < |items| && items[i].id == items[j].id ==> items[i].version == items[j].version)
    && (forall i :: 0 <= i < |items| ==> Get(s.active, items[i].id) != Some(items[i].version))
  }

  /** Everything works until the runtime is to be started. */
  function StartFails(): Faults {
    Faults(false, false, n => false, n => Works, n => false, false, Some(Start), false)
  }

  ghost predicate Twice(items: seq<Item>, i: nat, j: nat, n: nat) {
    i < j < n <= |items| && items[i].id == items[j].id
  }

  /** The second activation of a repeated artifact records the new version as the previous one. */
  ghost predicate Overwritten(t: Store, items: seq<Item>, n: nat) {
    && n <= |items|
    && (forall i :: 0 <= i < n ==> Get(t.active, items[i].id) == Some(items[i].version)
                                   && items[i].id in t.records && t.records[items[i].id].activated == items[i].version)
    && (forall i: nat, j: nat :: Twice(items, i, j, n) ==> t.records[items[j].id].previous == Some(items[j].version))
  }

  lemma {:induction false} RepeatsOverwrite(s: Store, t: Store, items: seq<Item>, n: nat)
    requires Changed(s, items) && Overwritten(t, items, n)
    ensures var a := ActivateFrom(t, items, n, StartFails());
            a.error == None && a.done == |items| && Overwritten(a.store, items, |items|)
    decreases |items| - n
  {
    if n < |items| {
      var t' := Activated(t, items[n]);
      forall i: nat, j: nat | i < j < n + 1 && items[i].id == items[j].id
        ensures t'.records[items[j].id].previous == Some(items[j].version)
      {
        if j < n { assert Twice(items, i, j, n); }
      }
      RepeatsOverwrite(s, t', items, n + 1);
    }
  }

  ghost predicate Undoable(t: Store, items: seq<Item>, n: nat, i: nat, j: nat) {
    && Twice(items, i, j, |items|) && n <= |items|
    && (forall k :: 0 <= k < n ==> items[k].id in t.records && t.records[items[k].id].activated == items[k].version
                                   && Get(t.active, items[k].id) == Some(items[k].version))
    && (forall k: nat, l: nat :: Twice(items, k, l, |items|) ==>
          && items[l].id in t.records
          && t.records[items[l].id] == Record(items[l].version, Some(items[l].version))
          && Get(t.active, items[l].id) == Some(items[l].version))
  }

  lemma {:induction false} RepeatsStay(t: Store, items: seq<Item>, n: nat, i: nat, j: nat)
    requires Undoable(t, items, n, i, j)
    ensures var u := UndoUntilFailure(t, items, n, StartFails());
            !u.failed && Get(u.store.active, items[j].id) == Some(items[j].version)
    decreases n
  {
    assert Twice(items, i, j, |items|);
    if n > 0 {
      var t' := RolledBack(t, items[n - 1].id);
      forall k | 0 <= k < n - 1
        ensures Get(t'.active, items[k].id) == Some(items[k].version)
      {
        if items[k].id == items[n - 1].id { assert Twice(items, k, n - 1, |items|); }
      }
      RepeatsStay(t', items, n - 1, i, j);
    }
  }

  lemma RepeatBreaksAtomicity(s: Store, items: seq<Item>, i: nat, j: nat)
    requires Changed(s, items) && Twice(items, i, j, |items|)
    ensures var r := Deployed(s, items, Cold, StartFails());
            r.error == Some(StageFailed(Start)) && r.store.active != s.active
  {
    RepeatsOverwrite(s, s, items, 0);
    var a := ActivateFrom(s, items, 0, StartFails());
    RepeatsStay(a.store, items, |items|, i, j);
    var u := UndoUntilFailure(a.store, items, |items|, StartFails());
    assert Get(u.store.active, items[j].id) != Get(s.active, items[j].id);
  }

  /** The transaction is all or nothing if and only if the list does not name an artifact twice. */
  lemma AtomicExactlyWhenDistinct(s: Store, items: seq<Item>)
    requires Changed(s, items)
    ensures Atomic(s, items) <==> DistinctIds(items)
  {
    if DistinctIds(items) {
      forall status: Status, f: Faults | !f.sink
        ensures var r := Deployed(s, items, status, f);
                r.error != None && r.error != Some(RollbackFailed) ==> r.store.active == s.active
      {
        AllOrNothing(s, items, status, f);
      }
    } else {
      var i, j :| 0 <= i < j < |items| && items[i].id == items[j].id;
      RepeatBreaksAtomicity(s, items, i, j);
      assert !StartFails().sink;
    }
  }

  // ----- the code, over a store that is updated in place -----

  class ArtifactStore {
    var active: map<nat, nat>
    var records: map<nat, Record>

    ghost function View(): Store
      reads this
    {
      Store(active, records)
    }

    constructor (s: Store)
      ensures View() == s
    {
      active, records := s.active, s.records;
    }

    method Activate(item: Item, fault: ActivateFault) returns (ok: bool)
      modifies this
      ensures ok <==> fault == Works
      ensures View() == if ok then Activated(old(View()), item) else NotActivated(old(View()), item, fault)
    {
      ok := fault == Works;
      if ok {
        records := records[item.id := Record(item.version, Get(active, item.id))];
        active := active[item.id := item.version];
      } else if fault == FailsLate {
        records := records - {item.id};
      }
    }

    method Rollback(id: nat, fault: bool) returns (ok: bool)
      modifies this
      ensures ok <==> !fault && CanRollback(old(View()), id)
      ensures View() == if ok then RolledBack(old(View()), id) else old(View())
    {
      ok := !fault && id in records && (id in active ==> active[id] == records[id].activated);
      if ok {
        active := Put(active, id, records[id].previous);
      }
    }

    /** `activateAll`: no error means every item is activated; on any error every activated item is rolled back. */
    method ActivateAll(items: seq<Item>, f: Faults) returns (error: Option<Code>)
      modifies this
      ensures Result(View(), error) == ActivatedAll(old(View()), items, f)
    {
      hide Activated, RolledBack, CanRollback;
      ghost var goal := ActivateFrom(View(), items, 0, f);
      var done := 0;
      error := None;
      while done < |items| && error == None
        invariant 0 <= done <= |items|
        invariant error == None ==> ActivateFrom(View(), items, done, f) == goal
        invariant error != None ==> goal == Activation(View(), error, done)
        decreases |items| - done, error == None
      {
        if f.abort(done) {
          error := Some(Cancelled);
        } else {
          var ok := Activate(items[done], f.activate(done));
          if ok { done := done + 1; } else { error := Some(ActivateFailed); }
        }
      }
      if error != None {
        ghost var undone := UndoEach(View(), items, done, f);
        var i, failed := done, false;
        while i > 0
          invariant 0 <= i <= done
          invariant undone.store == UndoEach(View(), items, i, f).store
          invariant undone.failed <==> failed || UndoEach(View(), items, i, f).failed
        {
          i := i - 1;
          var ok := Rollback(items[i].id, f.rollback(i));
          failed := failed || !ok;
        }
        if failed { error := Some(RollbackFailed); }
        return;
      }
      if f.sink { error := Some(SinkFailed); }
    }

    /** `activateStagedRuntime`, with what AllOrNothing says of it. */
    method Deploy(items: seq<Item>, status: Status, f: Faults) returns (error: Option<Code>)
      modifies this
      ensures Result(View(), error) == Deployed(old(View()), items, status, f)
      ensures DistinctIds(items) && error == None ==> AllActive(old(View()), View(), items)
      ensures DistinctIds(items) && error != None && error != Some(RollbackFailed) && !f.sink ==> active == old(active)
    {
      if DistinctIds(items) { AllOrNothing(View(), items, status, f); }
      if f.abortAtEntry { return Some(Cancelled); }
      if StopsFirst(status) && f.stop { return Some(StopFailed); }
      error := ActivateAll(items, f);
      if error != None {
        if WasLive(status) && error != Some(RollbackFailed) && f.restart { error := Some(RestartFailed); }
        return;
      }
      if f.stage == None { return; }
      error := Some(StageFailed(f.stage.value));
      ghost var undone := UndoUntilFailure(View(), items, |items|, f);
      var i, failed := |items|, false;
      while i > 0 && !failed
        invariant 0 <= i <= |items|
        invariant !failed ==> UndoUntilFailure(View(), items, i, f) == undone
        invariant failed ==> undone == Undo(View(), true)
        decreases i, !failed
      {
        var ok := Rollback(items[i - 1].id, f.rollback(i - 1));
        if ok { i := i - 1; } else { failed := true; }
      }
      if failed || (WasLive(status) && f.restart) { error := Some(RollbackFailed); }
    }
  }
}
