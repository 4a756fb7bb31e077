/** The classes of a union-find as groups. */
module Components {
  import opened UnionFind

  // Collecting the classes of a union-find into groups: a dictionary by root, in the order of first entry.

  predicate Ascending(c: seq<nat>) { forall x, y :: 0 <= x < y < |c| ==> c[x] < c[y] }

  /** The first `n` positions with this representative, in order. */
  function ClassOf(rep: seq<nat>, r: nat, n: nat): (c: seq<nat>)
    requires n <= |rep|
    ensures forall k: nat :: k in c <==> k < n && rep[k] == r
    ensures Ascending(c)
  {
    if n == 0 then []
    else
      var before := ClassOf(rep, r, n - 1);
      if rep[n - 1] != r then before
      else
        assert forall x :: 0 <= x < |before| ==> before[x] in before;
        before + [n - 1]
  }

  /** The entry of one root in the dictionary of groups. */
  ghost predicate Entry(rep: seq<nat>, members: map<nat, seq<nat>>, r: nat, n: nat)
    requires n <= |rep|
  {
    r in members ==> members[r] == ClassOf(rep, r, n) && members[r] != []
  }

  predicate InOrder(order: seq<nat>, members: map<nat, seq<nat>>, x: nat, y: nat) {
    x < y < |order| && order[x] in members && order[y] in members && members[order[x]] != [] && members[order[y]] != [] ==>
      members[order[x]][0] < members[order[y]][0]
  }

  /** The dictionary of groups, and the order in which its keys were entered. */
  ghost predicate Collected(rep: seq<nat>, order: seq<nat>, members: map<nat, seq<nat>>, n: nat) {
    && n <= |rep|
    && (forall r :: r in order <==> r in members)
    && (forall k: nat :: k < n ==> rep[k] in members)
    && (forall r: nat :: Entry(rep, members, r, n))
    && (forall x: nat, y: nat :: InOrder(order, members, x, y))
  }

  predicate FirstInOrder(groups: seq<seq<nat>>, g: nat, h: nat) {
    g < h < |groups| && groups[g] != [] && groups[h] != [] ==> groups[g][0] < groups[h][0]
  }

  predicate Has(groups: seq<seq<nat>>, g: nat, k: nat) {
    g < |groups| && k in groups[g]
  }

  ghost predicate Placed(groups: seq<seq<nat>>, k: nat) {
    exists g: nat :: Has(groups, g, k)
  }

  /**
   The groups: ordered by their first position, each in order, every position in exactly one, and one per component.
   */
  ghost predicate GroupsAreComponents(groups: seq<seq<nat>>, rel: Relation, n: nat) {
    && (forall g: nat, k: nat :: Has(groups, g, k) ==> k < n)
    && (forall k: nat :: k < n ==> Placed(groups, k))
    && (forall g: nat, h: nat, a: nat, b: nat :: Has(groups, g, a) && Has(groups, h, b) ==>
      (g == h <==> Linked(rel, n, a, b)))
    && (forall g :: 0 <= g < |groups| ==> groups[g] != [] && Ascending(groups[g]))
    && (forall g: nat, h: nat :: FirstInOrder(groups, g, h))
  }

  /** The dictionary of groups by root, in the order of first entry. */
  method Collect(forest: Forest, ghost rel: Relation) returns (groups: seq<seq<nat>>)
    requires forest.Valid() && Sound(forest.rep, rel) && Complete(forest.rep, rel)
    modifies forest.parent
    ensures GroupsAreComponents(groups, rel, forest.parent.Length)
  {
    ghost var rep := forest.rep;
    var order: seq<nat>, members: map<nat, seq<nat>> := [], map[];
    for i := 0 to forest.parent.Length
      invariant forest.Valid() && forest.rep == rep
      invariant Collected(rep, order, members, i)
    {
      var r := forest.Root(i);
      CollectNext(rep, order, members, i);
      if r in members {
        members := members[r := members[r] + [i]];
      } else {
        order := order + [r];
        members := members[r := [i]];
      }
    }
    groups := seq(|order|, x requires 0 <= x < |order| && order[x] in members => members[order[x]]);
    CollectedGroups(rep, order, members, groups, rel);
  }

  lemma CollectNext(rep: seq<nat>, order: seq<nat>, members: map<nat, seq<nat>>, i: nat)
    requires Collected(rep, order, members, i) && i < |rep|
    ensures var r := rep[i];
            if r in members then Collected(rep, order, members[r := members[r] + [i]], i + 1)
            else Collected(rep, order + [r], members[r := [i]], i + 1)
  {
    var r := rep[i];
    if r in members { CollectMore(rep, order, members, i); } else { CollectFirst(rep, order, members, i); }
  }

  lemma CollectMore(rep: seq<nat>, order: seq<nat>, members: map<nat, seq<nat>>, i: nat)
    requires Collected(rep, order, members, i) && i < |rep| && rep[i] in members
    ensures Collected(rep, order, members[rep[i] := members[rep[i]] + [i]], i + 1)
  {
    var members' := members[rep[i] := members[rep[i]] + [i]];
    var n := i + 1;
    forall r: nat ensures Entry(rep, members', r, n) { assert Entry(rep, members, r, i); }
    forall r: nat | r in members ensures members[r] != [] && members'[r] != [] && members'[r][0] == members[r][0] {
      assert Entry(rep, members, r, i);
    }
    forall x: nat, y: nat ensures InOrder(order, members', x, y) {
      assert InOrder(order, members, x, y);
      assert x < |order| ==> Entry(rep, members, order[x], i);
      assert y < |order| ==> Entry(rep, members, order[y], i);
    }
  }

  lemma CollectFirst(rep: seq<nat>, order: seq<nat>, members: map<nat, seq<nat>>, i: nat)
    requires Collected(rep, order, members, i) && i < |rep| && rep[i] !in members
    ensures Collected(rep, order + [rep[i]], members[rep[i] := [i]], i + 1)
  {
    var r0, members', order' := rep[i], members[rep[i] := [i]], order + [rep[i]];
    assert ClassOf(rep, r0, i) == [] by {
      if ClassOf(rep, r0, i) != [] { assert ClassOf(rep, r0, i)[0] in ClassOf(rep, r0, i); }
    }
    var n := i + 1;
    forall r: nat ensures Entry(rep, members', r, n) { assert Entry(rep, members, r, i); }
    forall x: nat, y: nat ensures InOrder(order', members', x, y) {
      assert InOrder(order, members, x, y);
      if x < y == |order| && order[x] in members {
        assert Entry(rep, members, order[x], i);
        assert members[order[x]][0] in ClassOf(rep, order[x], i);
      }
    }
  }

  lemma CollectedGroups(rep: seq<nat>, order: seq<nat>, members: map<nat, seq<nat>>, groups: seq<seq<nat>>,
      rel: Relation)
    requires Collected(rep, order, members, |rep|) && Sound(rep, rel) && Complete(rep, rel)
    requires |groups| == |order| && forall x :: 0 <= x < |order| ==>
        order[x] in members && groups[x] == members[order[x]]
    ensures GroupsAreComponents(groups, rel, |rep|)
  {
    forall g: nat | g < |groups| ensures groups[g] == ClassOf(rep, order[g], |rep|) && groups[g] != [] {
      assert Entry(rep, members, order[g], |rep|);
    }
    forall g: nat, h: nat ensures FirstInOrder(groups, g, h) {
      assert InOrder(order, members, g, h);
    }
    forall k: nat | k < |rep| ensures Placed(groups, k) {
      var g: nat :| g < |order| && order[g] == rep[k];
      assert Has(groups, g, k);
    }
    forall g: nat, h: nat, a: nat, b: nat | Has(groups, g, a) && Has(groups, h, b) ensures g == h <==>
      Linked(rel, |rep|, a, b) {
      ClassesAreComponents(rep, rel, a, b);
      assert rep[a] == order[g] && rep[b] == order[h];
      assert FirstInOrder(groups, g, h) && FirstInOrder(groups, h, g);
    }
  }
}
