/** Connection records, updated in place. */
module ConnectionRegistry {
  import opened Prelude
  import opened AgentConnections

  // The connection controller's own fields as an object: the records and the counter of foreground creations. Calls and session
  // lines are promises in the source; here they are ghost. Each method is one stretch of code between awaits and is proved to do
  // what the corresponding function of `AgentConnections` says.

  datatype Outcome = Inactive | ForegroundActive | MustPreempt(victims: seq<nat>) | Admitted

  class Registry {
    var records: map<nat, Record>
    var creations: int
    ghost var calls: map<nat, Call>
    ghost var lines: map<nat, seq<nat>>
    var next: nat

    ghost function Now(): State
      reads this
    {
      State(records, calls, lines, creations, next)
    }

    constructor ()
      ensures Now() == Initial
    {
      records, creations, calls, lines, next := map[], 0, map[], map[], 0;
    }

    /** `backgroundBlocked` */
    method BackgroundBlocked(idle: bool) returns (b: bool)
      ensures b == Blocked(Now(), idle)
    {
      b := creations > 0 || !idle;
      var rest := records.Keys;
      while rest != {}
        invariant rest <= records.Keys
        invariant b <==> creations > 0 || !idle || exists r :: r in records.Keys - rest && HasExclusive(Now(), r)
        decreases rest
      {
        var r :| r in rest;
        if exists q :: q in records[r].active && records[r].active[q].exclusive {
          b := true;
          assert HasExclusive(Now(), r);
        }
        rest := rest - {r};
      }
    }

    /** The list that `preemptBackgroundConnections` starts with. */
    method ListVictims() returns (victims: seq<nat>)
      ensures Victims(Now(), victims)
    {
      victims := [];
      var rest := records.Keys;
      while rest != {}
        invariant rest <= records.Keys
        invariant forall r :: r in victims <==> r !in rest && Victim(Now(), r)
        decreases rest
      {
        var r :| r in rest;
        if records[r].scheduling == Background && (!Terminal(records[r].status) || records[r].active != map[]) {
          victims := victims + [r];
        }
        rest := rest - {r};
      }
    }

    /** `beginProviderRequest` up to its first await. */
    method BeginProviderRequest(r: nat, q: nat, counts: bool, idle: bool) returns (outcome: Outcome,
        ghost victims: seq<nat>)
      modifies this
      ensures Victims(old(Now()), victims) && Now() == Begin(old(Now()), r, q, counts, idle, victims)
      ensures outcome.Inactive? <==> r !in old(records) || old(records)[r].status != Ready || q in old(records)[r].active
      ensures outcome.ForegroundActive?
              <==> !outcome.Inactive? && old(records)[r].scheduling == Background && Blocked(old(Now()), idle)
      ensures outcome.MustPreempt? <==> !outcome.Inactive? && counts && old(records)[r].scheduling == Exclusive
      ensures outcome.MustPreempt? ==> outcome.victims == victims
    {
      var list := ListVictims();
      victims := list;
      if r !in records || records[r].status != Ready || q in records[r].active { return Inactive, victims; }
      if records[r].scheduling == Background {
        var blocked := BackgroundBlocked(idle);
        if blocked { return ForegroundActive, victims; }
      }
      var exclusive := counts && records[r].scheduling == Exclusive;
      ghost var s := Now();
      records := records[r := records[r].(active := records[r].active[q := Active(exclusive, next)])];
      calls := calls[next := Call(Request(r, q, exclusive), if exclusive then AtVictims(s, list) else Accepted, false)];
      next := next + 1;
      outcome := if exclusive then MustPreempt(list) else Admitted;
    }

    /** `finishProviderRequest` */
    method FinishProviderRequest(r: nat, q: nat)
      modifies this
      ensures Now() == Finish(old(Now()), r, q)
    {
      calls := MarkFinished(calls, r, q);
      if r in records && q in records[r].active {
        records := records[r := records[r].(active := records[r].active - {q})];
      }
    }

    /** `refreshLifecycle`, `markReady` and the other places that change the status of one record. */
    method Change(r: nat, change: AgentConnections.Change)
      requires r in records
      modifies this`records
      ensures Now() == SetStatus(old(Now()), r, Changed(old(records)[r].status, change))
    {
      records := records[r := records[r].(status := Changed(records[r].status, change))];
    }

    /** The oldest of some records: they are numbered in the order of their creation. */
    method Oldest(rs: set<nat>) returns (r: nat)
      requires rs != {}
      ensures r in rs && forall x :: x in rs ==> r <= x
    {
      r :| r in rs;
      var rest := rs - {r};
      while rest != {}
        invariant rest <= rs && r in rs && forall x :: x in rs && x !in rest ==> r <= x
        decreases rest
      {
        var y :| y in rest;
        if y < r { r := y; }
        rest := rest - {y};
      }
    }

    /**
     `pruneHistory`: ended connections without active requests are forgotten, oldest first, and just as many as are
     over the limit.
     */
    method PruneHistory(limit: nat)
      modifies this`records
      ensures exists rs :: Enabled(old(Now()), Prune(rs)) && Now() == AgentConnections.Next(old(Now()), Prune(rs))
      ensures forall r :: r in old(records) && r !in records ==>
                r in Prunable(old(records)) && forall x :: x in Prunable(records) ==> r < x
      ensures |Prunable(records)| == Least(|Prunable(old(records))|, if limit < 1 then 1 else limit)
    {
      var most := if limit < 1 then 1 else limit;
      var prunable := Prunable(records);
      var removed: set<nat> := {};
      while |prunable| > most
        invariant removed <= old(records).Keys && records == old(records) - removed && prunable == Prunable(records)
        invariant |prunable| >= Least(|Prunable(old(records))|, most) && |prunable| <= |Prunable(old(records))|
        invariant forall r :: r in removed ==> r in Prunable(old(records)) && forall x :: x in prunable ==> r < x
        decreases |prunable|
      {
        var r := Oldest(prunable);
        records := records - {r};
        removed := removed + {r};
        prunable := prunable - {r};
      }
      assert Enabled(old(Now()), Prune(removed));
    }

    function Least(a: nat, b: nat): nat { if a < b then a else b }

    function Prunable(rs: map<nat, Record>): set<nat> {
      set r | r in rs && Terminal(rs[r].status) && rs[r].active == map[]
    }
  }
}
