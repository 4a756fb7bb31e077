/** Union-find with path halving. */
module UnionFind {
  // Union-find with path halving over an array of parents, and the components it is meant to compute.

  // ----- components of a relation -----

  /** A relation on positions, in either direction. */
  type Relation = (nat, nat) -> bool

  predicate Adjacent(rel: Relation, a: nat, b: nat) { rel(a, b) || rel(b, a) }

  predicate Walk(rel: Relation, n: nat, p: seq<nat>) {
    && p != []
    && (forall k :: 0 <= k < |p| ==> p[k] < n)
    && (forall k :: 0 <= k < |p| - 1 ==> Adjacent(rel, p[k], p[k + 1]))
  }

  /** A walk from `a` to `b`; so this is being in one connected component. */
  ghost predicate Linked(rel: Relation, n: nat, a: nat, b: nat) {
    exists p :: Walk(rel, n, p) && p[0] == a && p[|p| - 1] == b
  }

  lemma LinkedSelf(rel: Relation, n: nat, a: nat)
    requires a < n
    ensures Linked(rel, n, a, a)
  {
    assert Walk(rel, n, [a]);
  }

  lemma LinkedStep(rel: Relation, n: nat, a: nat, b: nat)
    requires a < n && b < n && Adjacent(rel, a, b)
    ensures Linked(rel, n, a, b)
  {
    var p := [a, b];
    assert Walk(rel, n, p) && p[0] == a && p[|p| - 1] == b;
  }

  lemma LinkedBack(rel: Relation, n: nat, a: nat, b: nat)
    requires Linked(rel, n, a, b)
    ensures Linked(rel, n, b, a)
  {
    var p :| Walk(rel, n, p) && p[0] == a && p[|p| - 1] == b;
    var q := seq(|p|, k requires 0 <= k < |p| => p[|p| - 1 - k]);
    forall k | 0 <= k < |q| - 1 ensures Adjacent(rel, q[k], q[k + 1]) {
      assert Adjacent(rel, p[|p| - 2 - k], p[|p| - 2 - k + 1]);
    }
    assert Walk(rel, n, q);
  }

  lemma LinkedOn(rel: Relation, n: nat, a: nat, b: nat, d: nat)
    requires Linked(rel, n, a, b) && Linked(rel, n, b, d)
    ensures Linked(rel, n, a, d)
  {
    var p :| Walk(rel, n, p) && p[0] == a && p[|p| - 1] == b;
    var q :| Walk(rel, n, q) && q[0] == b && q[|q| - 1] == d;
    var pq := p + q[1..];
    forall k | 0 <= k < |pq| - 1 ensures Adjacent(rel, pq[k], pq[k + 1]) {
      if k < |p| - 1 {
        assert Adjacent(rel, p[k], p[k + 1]);
      } else {
        assert pq[k] == q[k - (|p| - 1)] && pq[k + 1] == q[k - (|p| - 1) + 1];
      }
    }
    assert Walk(rel, n, pq) && pq[0] == a && pq[|pq| - 1] == d;
  }

  // ----- partitions by representatives -----

  /** What `parent[root(a)] = root(b)` does to the representatives. */
  function Merged(rep: seq<nat>, a: nat, b: nat): (r: seq<nat>)
    requires a < |rep| && b < |rep|
    ensures |r| == |rep|
    ensures forall k :: 0 <= k < |rep| ==> r[k] == if rep[k] == rep[a] then rep[b] else rep[k]
  {
    seq(|rep|, k requires 0 <= k < |rep| => if rep[k] == rep[a] then rep[b] else rep[k])
  }

  /** Only positions of one component share a representative. */
  ghost predicate Sound(rep: seq<nat>, rel: Relation) {
    forall a, b :: 0 <= a < |rep| && 0 <= b < |rep| && rep[a] == rep[b] ==> Linked(rel, |rep|, a, b)
  }

  /** Related positions share a representative. */
  ghost predicate Complete(rep: seq<nat>, rel: Relation) {
    forall a: nat, b: nat :: a < |rep| && b < |rep| && rel(a, b) ==> rep[a] == rep[b]
  }

  lemma EachAlone(rep: seq<nat>, rel: Relation)
    requires forall k :: 0 <= k < |rep| ==> rep[k] == k
    ensures Sound(rep, rel)
  {
    forall a | 0 <= a < |rep| ensures Linked(rel, |rep|, a, a) { LinkedSelf(rel, |rep|, a); }
  }

  lemma {:induction false} MergedSound(rep: seq<nat>, rel: Relation, a: nat, b: nat)
    requires Sound(rep, rel) && a < |rep| && b < |rep| && Adjacent(rel, a, b)
    ensures Sound(Merged(rep, a, b), rel)
  {
    var n, rep' := |rep|, Merged(rep, a, b);
    LinkedStep(rel, n, a, b);
    LinkedBack(rel, n, a, b);
    forall x, y | 0 <= x < n && 0 <= y < n && rep'[x] == rep'[y] ensures Linked(rel, n, x, y) {
      if rep[x] != rep[y] {
        if rep[x] == rep[a] {
          assert Linked(rel, n, x, a) && Linked(rel, n, b, y);
          LinkedOn(rel, n, x, a, b);
          LinkedOn(rel, n, x, b, y);
        } else {
          assert Linked(rel, n, x, b) && Linked(rel, n, a, y);
          LinkedOn(rel, n, x, b, a);
          LinkedOn(rel, n, x, a, y);
        }
      }
    }
  }

  lemma {:induction false} CompleteAlong(rep: seq<nat>, rel: Relation, p: seq<nat>)
    requires Complete(rep, rel) && Walk(rel, |rep|, p)
    ensures rep[p[0]] == rep[p[|p| - 1]]
    decreases |p|
  {
    if |p| > 1 {
      assert Adjacent(rel, p[0], p[0 + 1]);
      forall k | 0 <= k < |p[1..]| - 1 ensures Adjacent(rel, p[1..][k], p[1..][k + 1]) {
        assert Adjacent(rel, p[k + 1], p[k + 1 + 1]);
      }
      CompleteAlong(rep, rel, p[1..]);
    }
  }

  /** Sound and complete together: the classes are exactly the connected components. */
  lemma ClassesAreComponents(rep: seq<nat>, rel: Relation, a: nat, b: nat)
    requires Sound(rep, rel) && Complete(rep, rel) && a < |rep| && b < |rep|
    ensures rep[a] == rep[b] <==> Linked(rel, |rep|, a, b)
  {
    if Linked(rel, |rep|, a, b) {
      var p :| Walk(rel, |rep|, p) && p[0] == a && p[|p| - 1] == b;
      CompleteAlong(rep, rel, p);
    }
  }

  // ----- the forest -----

  /** Every position has a root, kept along its parent edge, and a height that falls along that edge. */
  predicate Node(parent: seq<nat>, rep: seq<nat>, height: seq<nat>, k: nat)
    requires |parent| == |rep| == |height|
  {
    k < |parent| ==>
      && parent[k] < |parent| && rep[k] < |parent|
      && rep[rep[k]] == rep[k]
      && (parent[k] == k <==> rep[k] == k)
      && rep[parent[k]] == rep[k]
      && (parent[k] != k ==> height[parent[k]] < height[k])
  }

  ghost predicate GoodForest(parent: seq<nat>, rep: seq<nat>, height: seq<nat>) {
    |parent| == |rep| == |height| && forall k: nat :: Node(parent, rep, height, k)
  }

  /** Path halving changes no root, and the walk goes on at a smaller height. */
  lemma HalvingKeeps(parent: seq<nat>, rep: seq<nat>, height: seq<nat>, r: nat)
    requires GoodForest(parent, rep, height) && r < |parent| && parent[r] != r
    ensures parent[r] < |parent| && parent[parent[r]] < |parent|
    ensures var up := parent[parent[r]];
            GoodForest(parent[r := up], rep, height) && height[up] < height[r] && rep[up] == rep[r]
  {
    assert Node(parent, rep, height, r) && Node(parent, rep, height, parent[r]);
    var parent' := parent[r := parent[parent[r]]];
    forall k: nat ensures Node(parent', rep, height, k) { assert Node(parent, rep, height, k); }
  }

  function Raised(rep: seq<nat>, height: seq<nat>, ra: nat, more: nat): (h: seq<nat>)
    requires |rep| == |height|
    ensures |h| == |height|
    ensures forall k :: 0 <= k < |h| ==> h[k] == if rep[k] == ra then height[k] + more else height[k]
  {
    seq(|height|, k requires 0 <= k < |height| => if rep[k] == ra then height[k] + more else height[k])
  }

  /** Hanging one root under another merges the two classes. */
  lemma JoiningMerges(parent: seq<nat>, rep: seq<nat>, height: seq<nat>, a: nat, b: nat)
    requires GoodForest(parent, rep, height) && a < |parent| && b < |parent| && rep[a] != rep[b]
    ensures rep[a] < |parent| && rep[b] < |parent|
    ensures GoodForest(parent[rep[a] := rep[b]], Merged(rep, a, b), Raised(rep, height, rep[a], height[rep[b]] + 1))
  {
    var ra, rb := rep[a], rep[b];
    assert Node(parent, rep, height, a) && Node(parent, rep, height, b);
    assert Node(parent, rep, height, ra) && Node(parent, rep, height, rb);
    var parent', rep', height' := parent[ra := rb], Merged(rep, a, b), Raised(rep, height, ra, height[rb] + 1);
    forall k: nat ensures Node(parent', rep', height', k) {
      assert Node(parent, rep, height, k);
      if k < |parent| { assert Node(parent, rep, height, rep[k]); }
    }
  }

  class Forest {
    const parent: array<nat>
    ghost var rep: seq<nat>
    ghost var height: seq<nat>

    ghost predicate Valid()
      reads this, parent
    {
      GoodForest(parent[..], rep, height)
    }

    constructor (n: nat)
      ensures Valid() && fresh(parent) && parent.Length == n
      ensures forall k :: 0 <= k < n ==> rep[k] == k
    {
      parent := new nat[n](k => k);
      rep := seq(n, k => k);
      height := seq(n, k => 0);
    }

    /** Follows the parents to the root, halving the path on the way; no root changes. */
    method Root(i: nat) returns (r: nat)
      requires Valid() && i < parent.Length
      modifies parent
      ensures Valid() && rep == old(rep) && r == rep[i] && r < parent.Length
    {
      r := i;
      while parent[r] != r
        invariant Valid() && rep == old(rep) && height == old(height)
        invariant r < parent.Length && rep[r] == rep[i]
        decreases height[r]
      {
        ghost var before := parent[..];
        HalvingKeeps(before, rep, height, r);
        parent[r] := parent[parent[r]];
        assert parent[..] == before[r := before[before[r]]];
        r := parent[r];
      }
      assert Node(parent[..], rep, height, r);
    }

    /** `parent[root(a)] = root(b)`: the class of `a` joins the class of `b`, even if they are one already. */
    method Join(a: nat, b: nat)
      requires Valid() && a < parent.Length && b < parent.Length
      modifies this, parent
      ensures Valid() && rep == Merged(old(rep), a, b)
    {
      var rb := Root(b);
      var ra := Root(a);
      ghost var before := parent[..];
      assert Node(before, rep, height, ra) && Node(before, rep, height, a);
      parent[ra] := rb;
      assert parent[..] == before[ra := rb];
      if ra == rb {
        assert rep[ra] == ra;
        assert before[ra] == ra;
        assert rep == Merged(rep, a, b) && parent[..] == before;
      } else {
        JoiningMerges(before, rep, height, a, b);
        height := Raised(rep, height, ra, height[rb] + 1);
        rep := Merged(rep, a, b);
      }
    }
  }
}
