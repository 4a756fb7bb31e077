/** Per-key queues of promises. */
module PromiseQueues {
  import opened Prelude

  // Per-key promise chains: `ArtifactManager.serialize` and `AgentConnectionController.withSessionLock`.
  //
  // The code keeps one tail promise per key and lets every new piece of work wait for the tail it found.
  // Here a promise is a ticket. The class keeps what the code keeps (the tail of each key, the promise each
  // ticket waits for, which promises have settled); the ghost field `lines` is the simple meaning, a first-in
  // first-out line per key.

  /** The names under which work is serialized. */
  datatype Key = Runtime(id: nat) | Release(id: nat) | Artifact(id: nat) | Session(id: nat)

  ghost function LineOf(lines: map<Key, seq<nat>>, key: Key): seq<nat> {
    if key in lines then lines[key] else []
  }

  /** What one key's tail, the promises its tickets wait for and its line have to do with each other. */
  ghost predicate Agrees(tails: map<Key, nat>, previous: map<nat, Option<nat>>, settled: set<nat>,
                         owner: map<nat, Key>, key: Key, l: seq<nat>)
  {
    && (l == [] ==> key !in tails)
    && (l != [] ==> key in tails && tails[key] == l[|l| - 1])
    && (forall i :: 0 <= i < |l| ==> l[i] in previous && l[i] !in settled && l[i] in owner && owner[l[i]] == key)
    && (forall i, j :: 0 <= i < j < |l| ==> l[i] < l[j])
    && (l != [] ==> previous[l[0]] == None || previous[l[0]].value in settled)
    && (forall i :: 1 <= i < |l| ==> previous[l[i]] == Some(l[i - 1]))
  }

  lemma Joined(tails: map<Key, nat>, previous: map<nat, Option<nat>>, settled: set<nat>, owner: map<nat, Key>,
               key: Key, l: seq<nat>, t: nat, k: Key)
    requires Agrees(tails, previous, settled, owner, key, l)
    requires t !in settled && forall u :: u in owner ==> u < t
    ensures t !in l
    ensures var p := if k in tails then Some(tails[k]) else None;
            Agrees(tails[k := t], previous[t := p], settled, owner[t := k], key, if k == key then l + [t] else l)
  {
    assert forall i :: 0 <= i < |l| ==> l[i] < t;
  }

  lemma Left(tails: map<Key, nat>, previous: map<nat, Option<nat>>, settled: set<nat>, owner: map<nat, Key>,
             key: Key, l: seq<nat>, t: nat, k: Key)
    requires Agrees(tails, previous, settled, owner, key, l)
    requires t in owner && owner[t] == k
    requires k == key ==> l != [] && l[0] == t
    ensures var tails' := if k in tails && tails[k] == t then tails - {k} else tails;
            Agrees(tails', previous, settled + {t}, owner, key, if k == key then l[1..] else l)
  {
    if k == key {
      var r := l[1..];
      assert forall i :: 0 <= i < |r| ==> r[i] == l[i + 1];
      if r != [] { assert previous[l[1]] == Some(l[0]); }
    }
  }

  ghost predicate AllAgree(tails: map<Key, nat>, previous: map<nat, Option<nat>>, settled: set<nat>,
                           owner: map<nat, Key>, lines: map<Key, seq<nat>>)
  {
    forall key :: Agrees(tails, previous, settled, owner, key, LineOf(lines, key))
  }

  lemma AllJoined(tails: map<Key, nat>, previous: map<nat, Option<nat>>, settled: set<nat>, owner: map<nat, Key>,
                  lines: map<Key, seq<nat>>, t: nat, k: Key)
    requires AllAgree(tails, previous, settled, owner, lines)
    requires t !in settled && forall u :: u in owner ==> u < t
    ensures var p := if k in tails then Some(tails[k]) else None;
            AllAgree(tails[k := t], previous[t := p], settled, owner[t := k], lines[k := LineOf(lines, k) + [t]])
    ensures forall key :: t !in LineOf(lines, key)
  {
    var p := if k in tails then Some(tails[k]) else None;
    var tails1, previous1, owner1, lines1 := tails[k := t], previous[t := p], owner[t := k],
      lines[k := LineOf(lines, k) + [t]];
    forall key ensures Agrees(tails1, previous1, settled, owner1, key, LineOf(lines1, key)) {
      Joined(tails, previous, settled, owner, key, LineOf(lines, key), t, k);
    }
    forall key ensures t !in LineOf(lines, key) {
      Joined(tails, previous, settled, owner, key, LineOf(lines, key), t, k);
    }
  }

  lemma AllLeft(tails: map<Key, nat>, previous: map<nat, Option<nat>>, settled: set<nat>, owner: map<nat, Key>,
                lines: map<Key, seq<nat>>, t: nat, k: Key)
    requires AllAgree(tails, previous, settled, owner, lines)
    requires t in owner && owner[t] == k && LineOf(lines, k) != [] && LineOf(lines, k)[0] == t
    ensures var tails' := if k in tails && tails[k] == t then tails - {k} else tails;
            AllAgree(tails', previous, settled + {t}, owner, lines[k := LineOf(lines, k)[1..]])
  {
    var tails1, settled1 := if k in tails && tails[k] == t then tails - {k} else tails, settled + {t};
    var lines1 := lines[k := LineOf(lines, k)[1..]];
    forall key ensures Agrees(tails1, previous, settled1, owner, key, LineOf(lines1, key)) {
      Left(tails, previous, settled, owner, key, LineOf(lines, key), t, k);
    }
  }

  class PromiseQueues {
    var tails: map<Key, nat>
    var previous: map<nat, Option<nat>>
    var settled: set<nat>
    var next: nat
    ghost var lines: map<Key, seq<nat>>
    ghost var owner: map<nat, Key>

    ghost predicate Valid()
      reads this
    {
      && AllAgree(tails, previous, settled, owner, lines)
      && (forall t :: t in settled ==> t < next)
      && (forall t :: t in owner ==> t < next)
    }

    /** The unsettled tickets of a key, the oldest first. */
    ghost function Line(key: Key): seq<nat>
      reads this
    {
      LineOf(lines, key)
    }

    constructor ()
      ensures Valid() && forall key :: Line(key) == []
    {
      tails, previous, settled, next := map[], map[], {}, 0;
      lines, owner := map[], map[];
    }

    /** The caller joins the end of the key's line and of no other. */
    method Serialize(key: Key) returns (ticket: nat)
      requires Valid()
      modifies this
      ensures Valid()
      ensures Line(key) == old(Line(key)) + [ticket]
      ensures forall other :: other != key ==> Line(other) == old(Line(other))
      ensures forall other :: ticket !in old(Line(other))
    {
      ticket := next;
      var p := if key in tails then Some(tails[key]) else None;
      AllJoined(tails, previous, settled, owner, lines, ticket, key);
      hide Agrees;
      lines, owner := lines[key := Line(key) + [ticket]], owner[ticket := key];
      previous := previous[ticket := p];
      tails := tails[key := ticket];
      next := next + 1;
    }

    /** A ticket's work may start exactly when the ticket is at the head of its line. */
    method MayStart(key: Key, ticket: nat) returns (start: bool)
      requires Valid() && ticket in Line(key)
      ensures start <==> Line(key)[0] == ticket
    {
      assert Agrees(tails, previous, settled, owner, key, Line(key));
      ghost var i :| 0 <= i < |Line(key)| && Line(key)[i] == ticket;
      assert i > 0 ==> previous[ticket] == Some(Line(key)[i - 1]);
      var p := previous[ticket];
      start := p == None || p.value in settled;
    }

    /** The head's work is over, whether it returned or threw: the line moves up by one and nothing else moves. */
    method Settle(key: Key, ticket: nat)
      requires Valid() && Line(key) != [] && Line(key)[0] == ticket
      modifies this
      ensures Valid()
      ensures Line(key) == old(Line(key))[1..]
      ensures forall other :: other != key ==> Line(other) == old(Line(other))
    {
      assert Agrees(tails, previous, settled, owner, key, Line(key));
      AllLeft(tails, previous, settled, owner, lines, ticket, key);
      hide Agrees;
      lines := lines[key := Line(key)[1..]];
      if key in tails && tails[key] == ticket {
        tails := tails - {key};
      }
      settled := settled + {ticket};
    }
  }
}
