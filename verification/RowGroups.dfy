/** Leakage groups of dataset rows. */
module RowGroups {
  import opened Prelude
  import opened UnionFind
  import opened Components

  // Grouping of dataset rows: one group per connected component of "same conversation, same template or near target".

  datatype Row = Row(id: string, conversation: string, template: string, target: string)

  /** `near_targets`, as a parameter; it need not be symmetric, the later row comes first. */
  type Near = (string, string) -> bool

  datatype Field = Conversation | Template

  function Key(row: Row, f: Field): string {
    match f
    case Conversation => row.conversation
    case Template => row.template
  }

  predicate NearRows(rows: seq<Row>, near: Near, i: nat, j: nat)
    requires i < |rows| && j < |rows|
  {
    j < i && near(rows[i].target, rows[j].target)
  }

  predicate RelatedRows(rows: seq<Row>, near: Near, a: nat, b: nat) {
    a < |rows| && b < |rows|
    && (rows[a].conversation == rows[b].conversation || rows[a].template == rows[b].template
      || NearRows(rows, near, a, b))
  }

  function Related(rows: seq<Row>, near: Near): Relation {
    (a: nat, b: nat) => RelatedRows(rows, near, a, b)
  }

  /** The related pairs among the first rows share a representative. */
  ghost predicate CompleteUpTo(rep: seq<nat>, rel: Relation, n: nat) {
    n <= |rep| && forall a: nat, b: nat :: a < n && b < n && rel(a, b) ==> rep[a] == rep[b]
  }

  /** The map names one holder of each key so far, and every holder shares its class. */
  ghost predicate Holders(rows: seq<Row>, f: Field, last: map<string, nat>, rep: seq<nat>, n: nat) {
    && n <= |rows| == |rep|
    && (forall k :: k in last ==> last[k] < n && Key(rows[last[k]], f) == k)
    && (forall a: nat :: a < n ==> Key(rows[a], f) in last && rep[a] == rep[last[Key(rows[a], f)]])
  }

  /** Merging never separates. */
  ghost predicate Coarser(rep: seq<nat>, rep': seq<nat>) {
    |rep| == |rep'| && forall a: nat, b: nat :: a < |rep| && b < |rep| && rep[a] == rep[b] ==> rep'[a] == rep'[b]
  }

  lemma HoldersKept(rows: seq<Row>, f: Field, last: map<string, nat>, rep: seq<nat>, rep': seq<nat>, n: nat)
    requires Holders(rows, f, last, rep, n) && Coarser(rep, rep')
    ensures Holders(rows, f, last, rep', n)
  {
  }

  /** With row `i` in the class of the last holder of its key, it may become the holder. */
  lemma HoldersNext(rows: seq<Row>, f: Field, last: map<string, nat>, rep: seq<nat>, i: nat)
    requires Holders(rows, f, last, rep, i) && i < |rows|
    requires Key(rows[i], f) in last ==> rep[last[Key(rows[i], f)]] == rep[i]
    ensures Holders(rows, f, last[Key(rows[i], f) := i], rep, i + 1)
  {
  }

  function PairsOf(rows: seq<Row>, near: Near, i: nat, j: nat): seq<(nat, nat)>
    requires i < |rows| && j <= i
  {
    if j == 0 then [] else PairsOf(rows, near, i, j - 1) + if NearRows(rows, near, i, j - 1) then [(j - 1, i)] else []
  }

  /** Every near pair, earlier row first, in the order of the later row and then of the earlier. */
  function NearPairs(rows: seq<Row>, near: Near, n: nat): seq<(nat, nat)>
    requires n <= |rows|
  {
    if n == 0 then [] else NearPairs(rows, near, n - 1) + PairsOf(rows, near, n - 1, n - 1)
  }

  /** Where the loop over the rows stands before row `i`. */
  ghost predicate RowsDone(rows: seq<Row>, near: Near, byConversation: map<string, nat>, byTemplate: map<string, nat>,
                           rep: seq<nat>, i: nat) {
    && |rep| == |rows| && Sound(rep, Related(rows, near)) && CompleteUpTo(rep, Related(rows, near), i)
    && Holders(rows, Conversation, byConversation, rep, i) && Holders(rows, Template, byTemplate, rep, i)
  }

  /** The first loop of `group_rows`. */
  method UnionRows(rows: seq<Row>, near: Near) returns (forest: Forest, pairs: seq<(nat, nat)>)
    ensures fresh(forest) && fresh(forest.parent) && forest.Valid() && |forest.rep| == forest.parent.Length == |rows|
    ensures Sound(forest.rep, Related(rows, near)) && Complete(forest.rep, Related(rows, near))
    ensures pairs == NearPairs(rows, near, |rows|)
  {
    forest := new Forest(|rows|);
    pairs := [];
    var byConversation: map<string, nat>, byTemplate: map<string, nat> := map[], map[];
    EachAlone(forest.rep, Related(rows, near));
    for i := 0 to |rows|
      invariant fresh(forest) && fresh(forest.parent) && forest.Valid() && forest.parent.Length == |rows|
      invariant RowsDone(rows, near, byConversation, byTemplate, forest.rep, i)
      invariant pairs == NearPairs(rows, near, i)
    {
      var more;
      byConversation, byTemplate, more := UnionRow(rows, near, forest, byConversation, byTemplate, i);
      pairs := pairs + more;
    }
  }

  /** One turn of that loop. */
  method UnionRow(rows: seq<Row>, near: Near, forest: Forest, byConversation: map<string, nat>,
      byTemplate: map<string, nat>, i: nat)
    returns (byConversation': map<string, nat>, byTemplate': map<string, nat>, pairs: seq<(nat, nat)>)
    requires forest.Valid() && forest.parent.Length == |rows| && i < |rows|
    requires RowsDone(rows, near, byConversation, byTemplate, forest.rep, i)
    modifies forest, forest.parent
    ensures forest.Valid() && RowsDone(rows, near, byConversation', byTemplate', forest.rep, i + 1)
    ensures pairs == PairsOf(rows, near, i, i)
  {
    ghost var rep0 := forest.rep;
    byConversation' := JoinHolder(rows, near, forest, Conversation, byConversation, i);
    HoldersKept(rows, Template, byTemplate, rep0, forest.rep, i);
    ghost var rep1 := forest.rep;
    byTemplate' := JoinHolder(rows, near, forest, Template, byTemplate, i);
    HoldersKept(rows, Conversation, byConversation', rep1, forest.rep, i + 1);
    ghost var rep2 := forest.rep;
    pairs := JoinNear(rows, near, forest, i);
    HoldersKept(rows, Conversation, byConversation', rep2, forest.rep, i + 1);
    HoldersKept(rows, Template, byTemplate', rep2, forest.rep, i + 1);
    CoarserOn(rep0, rep1, rep2);
    CoarserOn(rep0, rep2, forest.rep);
    RowDone(rows, near, byConversation', byTemplate', rep0, forest.rep, i);
  }

  lemma CoarserOn(rep0: seq<nat>, rep1: seq<nat>, rep2: seq<nat>)
    requires Coarser(rep0, rep1) && Coarser(rep1, rep2)
    ensures Coarser(rep0, rep2)
  {
  }

  lemma SameKeySameClass(rows: seq<Row>, f: Field, last: map<string, nat>, rep: seq<nat>, n: nat, a: nat, b: nat)
    requires Holders(rows, f, last, rep, n) && a < n && b < n && Key(rows[a], f) == Key(rows[b], f)
    ensures rep[a] == rep[b]
  {
  }

  lemma {:induction false} RowDone(rows: seq<Row>, near: Near, byConversation: map<string, nat>,
      byTemplate: map<string, nat>, rep0: seq<nat>, rep: seq<nat>, i: nat)
    requires i < |rows| == |rep| && CompleteUpTo(rep0, Related(rows, near), i) && Coarser(rep0, rep)
    requires Holders(rows, Conversation, byConversation, rep, i + 1) && Holders(rows, Template, byTemplate, rep, i + 1)
    requires forall j: nat :: j < i && NearRows(rows, near, i, j) ==> rep[j] == rep[i]
    ensures CompleteUpTo(rep, Related(rows, near), i + 1)
  {
    forall a: nat, b: nat | a < i + 1 && b < i + 1 && Related(rows, near)(a, b) ensures rep[a] == rep[b] {
      hide *;
      PairDone(rows, near, byConversation, byTemplate, rep0, rep, i, a, b);
    }
  }

  lemma {:induction false} PairDone(rows: seq<Row>, near: Near, byConversation: map<string, nat>,
      byTemplate: map<string, nat>, rep0: seq<nat>, rep: seq<nat>, i: nat, a: nat, b: nat)
    requires i < |rows| == |rep| && CompleteUpTo(rep0, Related(rows, near), i) && Coarser(rep0, rep)
    requires Holders(rows, Conversation, byConversation, rep, i + 1) && Holders(rows, Template, byTemplate, rep, i + 1)
    requires forall j: nat :: j < i && NearRows(rows, near, i, j) ==> rep[j] == rep[i]
    requires a < i + 1 && b < i + 1 && Related(rows, near)(a, b)
    ensures rep[a] == rep[b]
  {
    hide Holders, Coarser;
    assert RelatedRows(rows, near, a, b);
    if rows[a].conversation == rows[b].conversation {
      SameKeySameClass(rows, Conversation, byConversation, rep, i + 1, a, b);
    } else if rows[a].template == rows[b].template {
      SameKeySameClass(rows, Template, byTemplate, rep, i + 1, a, b);
    } else if a < i {
      StillTogether(rep0, rep, a, b);
    }
  }

  lemma StillTogether(rep0: seq<nat>, rep: seq<nat>, a: nat, b: nat)
    requires Coarser(rep0, rep) && a < |rep0| && b < |rep0| && rep0[a] == rep0[b]
    ensures rep[a] == rep[b]
  {
  }

  /** Row `i` joins the last row with its key, and becomes the last one. */
  method JoinHolder(rows: seq<Row>, near: Near, forest: Forest, f: Field, last: map<string, nat>, i: nat)
    returns (last': map<string, nat>)
    requires forest.Valid() && forest.parent.Length == |rows| && i < |rows|
    requires Sound(forest.rep, Related(rows, near)) && Holders(rows, f, last, forest.rep, i)
    modifies forest, forest.parent
    ensures forest.Valid() && Sound(forest.rep, Related(rows, near)) && Coarser(old(forest.rep), forest.rep)
    ensures Holders(rows, f, last', forest.rep, i + 1)
  {
    var key := Key(rows[i], f);
    ghost var rep0 := forest.rep;
    if key in last {
      assert Adjacent(Related(rows, near), last[key], i);
      MergedSound(forest.rep, Related(rows, near), last[key], i);
      forest.Join(last[key], i);
    }
    HoldersKept(rows, f, last, rep0, forest.rep, i);
    HoldersNext(rows, f, last, forest.rep, i);
    last' := last[key := i];
  }

  /** Row `i` joins every earlier row with a near target. */
  method JoinNear(rows: seq<Row>, near: Near, forest: Forest, i: nat) returns (pairs: seq<(nat, nat)>)
    requires forest.Valid() && forest.parent.Length == |rows| && i < |rows| && Sound(forest.rep, Related(rows, near))
    modifies forest, forest.parent
    ensures forest.Valid() && Sound(forest.rep, Related(rows, near)) && Coarser(old(forest.rep), forest.rep)
    ensures forall j: nat :: j < i && NearRows(rows, near, i, j) ==> forest.rep[j] == forest.rep[i]
    ensures pairs == PairsOf(rows, near, i, i)
  {
    hide Sound;
    pairs := [];
    for j := 0 to i
      invariant forest.Valid() && Sound(forest.rep, Related(rows, near)) && Coarser(old(forest.rep), forest.rep)
      invariant forall k: nat :: k < j && NearRows(rows, near, i, k) ==> forest.rep[k] == forest.rep[i]
      invariant pairs == PairsOf(rows, near, i, j)
    {
      if near(rows[i].target, rows[j].target) {
        assert NearRows(rows, near, i, j) && Adjacent(Related(rows, near), j, i);
        MergedSound(forest.rep, Related(rows, near), j, i);
        forest.Join(j, i);
        pairs := pairs + [(j, i)];
      }
    }
  }

  /** `group_rows`: the groups, as positions of rows, and the near pairs. */
  method GroupRows(rows: seq<Row>, near: Near) returns (groups: seq<seq<nat>>, pairs: seq<(nat, nat)>)
    ensures GroupsAreComponents(groups, Related(rows, near), |rows|)
    ensures pairs == NearPairs(rows, near, |rows|)
  {
    var forest;
    forest, pairs := UnionRows(rows, near);
    groups := Collect(forest, Related(rows, near));
  }

  // ----- reference rows -----

  datatype Reference = Reference(id: string, conversation: Option<string>, template: Option<string>, target: string)

  /** The row matches by id, conversation, original template or near target. */
  predicate Matches(row: Row, near: Near, original: Option<string>, ref: Reference) {
    || row.id == ref.id
    || Some(row.conversation) == ref.conversation
    || (ref.template.Some? && original == ref.template)
    || near(row.target, ref.target)
  }

  ghost predicate Touched(rows: seq<Row>, near: Near, originals: seq<Option<string>>, refs: seq<Reference>,
      group: seq<nat>) {
    exists k, ref :: k in group && k < |rows| && k < |originals| && ref in refs && Matches(rows[k], near, originals[k], ref)
  }

  /** The groups that must stay in the evaluation split: those with a row that matches a reference. */
  method PinnedGroups(rows: seq<Row>, near: Near, originals: seq<Option<string>>, refs: seq<Reference>,
      groups: seq<seq<nat>>)
    returns (pinned: set<nat>)
    requires |originals| == |rows| && forall g, k :: 0 <= g < |groups| && k in groups[g] ==> k < |rows|
    ensures forall g: nat :: g in pinned <==> g < |groups| && Touched(rows, near, originals, refs, groups[g])
  {
    pinned := {};
    for g := 0 to |groups|
      invariant forall h: nat :: h in pinned <==> h < g && Touched(rows, near, originals, refs, groups[h])
    {
      if exists k :: k in groups[g] && exists ref :: ref in refs && Matches(rows[k], near, originals[k], ref) {
        pinned := pinned + {g};
      }
    }
  }

  // ----- the second use of the same union-find -----

  function Similar(targets: seq<string>, near: Near): Relation {
    (a: nat, b: nat) => b < a < |targets| && (targets[a] == targets[b] || near(targets[a], targets[b]))
  }

  /** Row `i` joins every earlier row with an equal or near target. */
  method JoinSimilar(targets: seq<string>, near: Near, forest: Forest, i: nat) returns (pairs: seq<(nat, nat)>)
    requires forest.Valid() && forest.parent.Length == |targets| && i < |targets|
    requires Sound(forest.rep, Similar(targets, near)) && CompleteUpTo(forest.rep, Similar(targets, near), i)
    modifies forest, forest.parent
    ensures forest.Valid()
    ensures Sound(forest.rep, Similar(targets, near)) && CompleteUpTo(forest.rep, Similar(targets, near), i + 1)
    ensures forall a: nat, b: nat :: (b, a) in pairs <==>
              a == i && b < i && near(targets[i], targets[b]) && targets[i] != targets[b]
  {
    ghost var rel := Similar(targets, near);
    pairs := [];
    for j := 0 to i
      invariant forest.Valid() && Sound(forest.rep, rel) && CompleteUpTo(forest.rep, rel, i)
      invariant forall k: nat :: k < j && rel(i, k) ==> forest.rep[i] == forest.rep[k]
      invariant forall a: nat, b: nat :: (b, a) in pairs <==>
                  a == i && b < j && near(targets[i], targets[b]) && targets[i] != targets[b]
    {
      if targets[i] == targets[j] || near(targets[i], targets[j]) {
        assert Adjacent(rel, i, j);
        MergedSound(forest.rep, rel, i, j);
        forest.Join(i, j);
        if near(targets[i], targets[j]) && targets[i] != targets[j] {
          pairs := pairs + [(j, i)];
        }
      }
    }
  }

  /** `groups_for`: rows get the same group label exactly when a chain of equal or near targets joins them. */
  method GroupsFor(targets: seq<string>, near: Near) returns (labels: seq<nat>, pairs: seq<(nat, nat)>)
    ensures |labels| == |targets|
    ensures forall a, b :: 0 <= a < |targets| && 0 <= b < |targets| ==>
              (labels[a] == labels[b] <==> Linked(Similar(targets, near), |targets|, a, b))
    ensures forall a: nat, b: nat :: (b, a) in pairs <==>
              b < a < |targets| && near(targets[a], targets[b]) && targets[a] != targets[b]
  {
    ghost var rel := Similar(targets, near);
    var forest := new Forest(|targets|);
    pairs := [];
    EachAlone(forest.rep, rel);
    for i := 0 to |targets|
      invariant fresh(forest) && fresh(forest.parent) && forest.Valid() && forest.parent.Length == |targets|
      invariant Sound(forest.rep, rel) && CompleteUpTo(forest.rep, rel, i)
      invariant forall a: nat, b: nat :: (b, a) in pairs <==>
                  b < a < i && near(targets[a], targets[b]) && targets[a] != targets[b]
    {
      var more := JoinSimilar(targets, near, forest, i);
      pairs := pairs + more;
    }
    labels := [];
    for i := 0 to |targets|
      invariant fresh(forest.parent) && forest.Valid() && forest.parent.Length == |targets|
      invariant Sound(forest.rep, rel) && Complete(forest.rep, rel)
      invariant labels == forest.rep[..i]
    {
      var r := forest.Root(i);
      labels := labels + [r];
    }
    forall a, b | 0 <= a < |targets| && 0 <= b < |targets|
      ensures labels[a] == labels[b] <==> Linked(rel, |targets|, a, b)
    {
      ClassesAreComponents(forest.rep, rel, a, b);
    }
  }
}
