/** The promise queues carry the lock protocol. */
module ArtifactQueues {
  import opened PromiseQueues
  import Locks = ArtifactLocks

  // The lines of the lock protocol are the lines of the promise queues, with tasks in place of tickets.

  /** Position by position, the tickets are those of the tasks. */
  predicate Pairs(tickets: seq<nat>, tasks: seq<nat>, taker: map<nat, nat>) {
    |tickets| == |tasks| && forall i :: 0 <= i < |tickets| ==> tickets[i] in taker && taker[tickets[i]] == tasks[i]
  }

  lemma PairsJoined(tickets: seq<nat>, tasks: seq<nat>, taker: map<nat, nat>, ticket: nat, t: nat)
    requires Pairs(tickets, tasks, taker) && ticket !in tickets
    ensures Pairs(tickets, tasks, taker[ticket := t]) && Pairs(tickets + [ticket], tasks + [t], taker[ticket := t])
  {
  }

  lemma PairsLeft(tickets: seq<nat>, tasks: seq<nat>, taker: map<nat, nat>)
    requires Pairs(tickets, tasks, taker) && tickets != []
    ensures tasks != [] && Pairs(tickets[1..], tasks[1..], taker)
  {
  }

  class LockLines {
    const queues: PromiseQueues
    ghost var taker: map<nat, nat>

    ghost predicate Shows(s: Locks.State, k: Key)
      reads this, queues
    {
      Pairs(queues.Line(k), Locks.Line(s, k), taker)
    }

    ghost predicate Valid(s: Locks.State)
      reads this, queues
    {
      queues.Valid() && forall k :: Shows(s, k)
    }

    constructor ()
      ensures forall s: Locks.State :: s.lines == map[] ==> Valid(s)
      ensures fresh(queues)
    {
      queues := new PromiseQueues();
      taker := map[];
    }

    /** A task calls `serialize` for its next key. */
    method Take(ghost s: Locks.State, ghost e: Locks.Step, k: Key) returns (ticket: nat)
      requires Valid(s) && Locks.Enabled(s, e) && (e.Submit? || e.Acquire?)
      requires k == s.tasks[e.t].plan[if e.Submit? then 0 else s.tasks[e.t].held]
      modifies this, queues
      ensures Valid(Locks.Next(s, e)) && ticket in queues.Line(k) && ticket in taker && taker[ticket] == e.t
    {
      ghost var s' := Locks.Next(s, e);
      assert forall x :: Locks.Line(s', x) == if x == k then Locks.Line(s, k) + [e.t] else Locks.Line(s, x);
      hide Locks.Next, Locks.Enabled, Pairs;
      ticket := queues.Serialize(k);
      forall x ensures Pairs(queues.Line(x), Locks.Line(s', x), taker[ticket := e.t]) {
        assert old(Shows(s, x));
        PairsJoined(old(queues.Line(x)), Locks.Line(s, x), taker, ticket, e.t);
      }
      taker := taker[ticket := e.t];
      assert queues.Line(k)[|queues.Line(k)| - 1] == ticket;
    }

    /** The promise a waiting task found has settled exactly when the protocol grants it the key. */
    method Granted(ghost s: Locks.State, ghost t: nat, k: Key, ticket: nat) returns (granted: bool)
      requires Valid(s) && Locks.Inv(s) && Locks.Waits(s, t, k)
      requires ticket in queues.Line(k) && ticket in taker && taker[ticket] == t
      ensures granted <==> Locks.Enabled(s, Locks.Grant(t))
    {
      assert Shows(s, k) && Locks.GoodLine(s, k);
      ghost var i :| 0 <= i < |queues.Line(k)| && queues.Line(k)[i] == ticket;
      granted := queues.MayStart(k, ticket);
    }

    /** The work under a key is over. */
    method Leave(ghost s: Locks.State, ghost t: nat, k: Key, ticket: nat)
      requires Valid(s) && Locks.Enabled(s, Locks.Unlock(t)) && k == s.tasks[t].plan[s.tasks[t].held - 1]
      requires queues.Line(k) != [] && queues.Line(k)[0] == ticket
      modifies this, queues
      ensures Valid(Locks.Next(s, Locks.Unlock(t)))
    {
      ghost var s' := Locks.Next(s, Locks.Unlock(t));
      assert forall x :: Locks.Line(s', x) == if x == k then Locks.Line(s, k)[1..] else Locks.Line(s, x);
      hide Locks.Next, Locks.Enabled, Pairs;
      queues.Settle(k, ticket);
      forall x ensures Pairs(queues.Line(x), Locks.Line(s', x), taker) {
        assert old(Shows(s, x));
        if x == k { PairsLeft(old(queues.Line(k)), Locks.Line(s, k), taker); }
      }
    }
  }
}
