/** The greedy split of groups of rows. */
module GroupSplit {
  // The greedy split of row groups into train, calibration and eval. Random orders and tie-breaks are inputs; costs are exact
  // numbers. Labels are numbered; a group is its list of rows.

  datatype Row = Row(id: nat, primary: nat)
  type Group = seq<Row>

  const Eval: nat := 2

  function Ratio(s: nat): real { if s == 0 then 0.6 else 0.2 }

  // ----- counting -----

  function Count(rows: seq<Row>, l: nat): nat {
    if rows == [] then 0 else Count(rows[..|rows| - 1], l) + if rows[|rows| - 1].primary == l then 1 else 0
  }

  lemma {:induction false} CountAppended(a: seq<Row>, b: seq<Row>, l: nat)
    ensures Count(a + b, l) == Count(a, l) + Count(b, l)
  {
    if b == [] {
      assert a + b == a;
    } else {
      CountAppended(a, b[..|b| - 1], l);
      assert (a + b)[..|a + b| - 1] == a + b[..|b| - 1];
    }
  }

  /** `Counter(r['primary_label'] for r in rows)`, over the labels of the contract. */
  function Counts(rows: seq<Row>, labels: nat): (c: seq<nat>)
    ensures |c| == labels && forall l: nat :: l < labels ==> c[l] == Count(rows, l)
  {
    seq(labels, l requires 0 <= l < labels => Count(rows, l))
  }

  function Flat(groups: seq<Group>): seq<Row> {
    if groups == [] then [] else Flat(groups[..|groups| - 1]) + groups[|groups| - 1]
  }

  /** How many groups have a row with this label. */
  function GroupsWith(groups: seq<Group>, l: nat): nat {
    if groups == [] then 0
    else GroupsWith(groups[..|groups| - 1], l) + if Count(groups[|groups| - 1], l) > 0 then 1 else 0
  }

  // ----- costs -----

  function Weight(t: real): (w: real)
    ensures w >= 1.0
  {
    if t > 1.0 then t else 1.0
  }

  function Square(x: real): real { x * x }

  /** How far one count is from its target. */
  function Miss(o: nat, t: real): real { Square(o as real - t) / Weight(t) }

  function MissOf(observed: seq<nat>, targets: seq<real>, n: nat): real
    requires n <= |observed| && n <= |targets|
  {
    if n == 0 then 0.0 else MissOf(observed, targets, n - 1) + Miss(observed[n - 1], targets[n - 1])
  }

  type Observed = o: seq<seq<nat>> | |o| == 3 witness [[], [], []]
  type Targets = t: seq<seq<real>> | |t| == 3 witness [[], [], []]

  predicate Shaped(observed: Observed, targets: Targets, labels: nat) {
    forall s :: 0 <= s < 3 ==> |observed[s]| == labels && |targets[s]| == labels
  }

  /** The global objective. */
  function Objective(observed: Observed, targets: Targets, labels: nat): real
    requires Shaped(observed, targets, labels)
  {
    MissOf(observed[0], targets[0], labels) + MissOf(observed[1], targets[1], labels) + MissOf(observed[2], targets[2], labels)
  }

  function Plus(a: seq<nat>, b: seq<nat>): (c: seq<nat>)
    requires |a| == |b|
    ensures |c| == |a| && forall l :: 0 <= l < |a| ==> c[l] == a[l] + b[l]
  {
    seq(|a|, l requires 0 <= l < |a| => a[l] + b[l])
  }

  /** The incremental cost: only the labels of the group are looked at. */
  function Delta(observed: seq<nat>, addition: seq<nat>, targets: seq<real>, n: nat): real
    requires n <= |observed| == |addition| == |targets|
  {
    if n == 0 then 0.0
    else
      var o, m, t := observed[n - 1], addition[n - 1], targets[n - 1];
      Delta(observed, addition, targets, n - 1)
        + if m == 0 then 0.0 else (Square((o + m) as real - t) - Square(o as real - t)) / Weight(t)
  }

  lemma Quotients(a: real, b: real, w: real)
    requires w >= 1.0
    ensures (a - b) / w == a / w - b / w
  {
    assert (a / w - b / w) * w == a - b;
  }

  lemma {:induction false} DeltaIsMiss(observed: seq<nat>, addition: seq<nat>, targets: seq<real>, n: nat)
    requires n <= |observed| == |addition| == |targets|
    ensures MissOf(Plus(observed, addition), targets, n) ==
            MissOf(observed, targets, n) + Delta(observed, addition, targets, n)
  {
    if n > 0 {
      DeltaIsMiss(observed, addition, targets, n - 1);
      var o, m, t := observed[n - 1], addition[n - 1], targets[n - 1];
      Quotients(Square((o + m) as real - t), Square(o as real - t), Weight(t));
    }
  }

  // ----- one attempt -----

  /** The three lists of rows so far, and how often each label occurs in each. */
  datatype Split = Split(parts: seq<seq<Row>>, observed: Observed)

  predicate Good(sp: Split, labels: nat) {
    |sp.parts| == 3 && forall s :: 0 <= s < 3 ==> sp.observed[s] == Counts(sp.parts[s], labels)
  }

  function Empty(labels: nat): (sp: Split)
    ensures Good(sp, labels)
  {
    Split([[], [], []], [Counts([], labels), Counts([], labels), Counts([], labels)])
  }

  function Put(sp: Split, s: nat, group: Group, labels: nat): (r: Split)
    requires Good(sp, labels) && s < 3
    ensures Good(r, labels)
    ensures r.parts == sp.parts[s := sp.parts[s] + group]
  {
    PutCounts(sp.parts[s], group, labels);
    Split(sp.parts[s := sp.parts[s] + group], sp.observed[s := Plus(sp.observed[s], Counts(group, labels))])
  }

  lemma PutCounts(rows: seq<Row>, group: Group, labels: nat)
    ensures Plus(Counts(rows, labels), Counts(group, labels)) == Counts(rows + group, labels)
  {
    forall l: nat | l < labels
      ensures Counts(rows + group, labels)[l] == Plus(Counts(rows, labels), Counts(group, labels))[l]
    {
      CountAppended(rows, group, l);
    }
  }

  function Cost(sp: Split, s: nat, group: Group, targets: Targets, labels: nat): real
    requires Good(sp, labels) && Shaped(sp.observed, targets, labels) && s < 3
  {
    Delta(sp.observed[s], Counts(group, labels), targets[s], labels)
  }

  /** The incremental cost of a group is exactly what putting it there adds to the global objective. */
  lemma {:induction false} CostIsChange(sp: Split, s: nat, group: Group, targets: Targets, labels: nat)
    requires Good(sp, labels) && Shaped(sp.observed, targets, labels) && s < 3
    ensures Shaped(Put(sp, s, group, labels).observed, targets, labels)
    ensures Objective(Put(sp, s, group, labels).observed, targets, labels)
            == Objective(sp.observed, targets, labels) + Cost(sp, s, group, targets, labels)
  {
    DeltaIsMiss(sp.observed[s], Counts(group, labels), targets[s], labels);
  }

  /** The tuple order of `min` over (cost, random number, split). */
  predicate Before(cost: real, tie: real, s: nat, cost': real, tie': real, s': nat) {
    cost < cost' || (cost == cost' && (tie < tie' || (tie == tie' && s <= s')))
  }

  type Ties = t: seq<real> | |t| == 3 witness [0.0, 0.0, 0.0]

  function Chosen(costs: Ties, ties: Ties): (c: nat)
    ensures c < 3 && forall s: nat :: s < 3 ==> Before(costs[c], ties[c], c, costs[s], ties[s], s)
  {
    var c := if Before(costs[0], ties[0], 0, costs[1], ties[1], 1) then 0 else 1;
    if Before(costs[c], ties[c], c, costs[2], ties[2], 2) then c else 2
  }

  function Choice(sp: Split, group: Group, targets: Targets, labels: nat, ties: Ties): (c: nat)
    requires Good(sp, labels) && Shaped(sp.observed, targets, labels)
    ensures c < 3
  {
    Chosen([Cost(sp, 0, group, targets, labels), Cost(sp, 1, group, targets, labels), Cost(sp, 2, group, targets, labels)], ties)
  }

  /** So a group goes where the global objective becomes least. */
  lemma {:induction false} ChoiceIsBest(sp: Split, group: Group, targets: Targets, labels: nat, ties: Ties, s: nat)
    requires Good(sp, labels) && Shaped(sp.observed, targets, labels) && s < 3
    ensures var c := Choice(sp, group, targets, labels, ties);
            && Shaped(Put(sp, c, group, labels).observed, targets, labels)
            && Shaped(Put(sp, s, group, labels).observed, targets, labels)
            && Objective(Put(sp, c, group, labels).observed, targets, labels)
               <= Objective(Put(sp, s, group, labels).observed, targets, labels)
  {
    var c := Choice(sp, group, targets, labels, ties);
    CostIsChange(sp, c, group, targets, labels);
    CostIsChange(sp, s, group, targets, labels);
    var costs: Ties := [Cost(sp, 0, group, targets, labels), Cost(sp, 1, group, targets, labels),
      Cost(sp, 2, group, targets, labels)];
    assert Before(costs[c], ties[c], c, costs[s], ties[s], s);
    assert costs[s] == Cost(sp, s, group, targets, labels) && costs[c] == Cost(sp, c, group, targets, labels);
  }

  /** One attempt: an order of the groups (shuffled, then longest first) and a tie-break for each group. */
  datatype Attempt = Attempt(order: seq<nat>, ties: seq<Ties>)

  /** Every group once. */
  ghost predicate Permutation(order: seq<nat>, n: nat) {
    |order| == n && (forall g: nat :: g < n ==> g in order) && (forall k :: 0 <= k < |order| ==> order[k] < n)
    && (forall j, k :: 0 <= j < k < |order| ==> order[j] != order[k])
  }

  predicate InRange(visited: seq<nat>, n: nat) { forall k :: 0 <= k < |visited| ==> visited[k] < n }

  predicate Fits(a: Attempt, groups: seq<Group>) { InRange(a.order, |groups|) && |a.ties| == |groups| }

  /** What the shuffle and the sort by length give. */
  ghost predicate Drawn(a: Attempt, groups: seq<Group>) {
    Fits(a, groups) && Permutation(a.order, |groups|)
    && forall j, k :: 0 <= j < k < |a.order| ==> |groups[a.order[j]]| >= |groups[a.order[k]]|
  }

  /** The first loop: pinned groups go to eval. */
  function PutPinned(groups: seq<Group>, labels: nat, pinned: set<nat>, order: seq<nat>): (sp: Split)
    requires forall k :: 0 <= k < |order| ==> order[k] < |groups|
    ensures Good(sp, labels)
  {
    if order == [] then Empty(labels)
    else
      var sp, g := PutPinned(groups, labels, pinned, order[..|order| - 1]), order[|order| - 1];
      if g in pinned then Put(sp, Eval, groups[g], labels) else sp
  }

  /** The second loop: every other group goes where it costs least. */
  function PutRest(groups: seq<Group>, labels: nat, targets: Targets, pinned: set<nat>, ties: seq<Ties>,
      order: seq<nat>, from: Split)
    : (sp: Split)
    requires forall k :: 0 <= k < |order| ==> order[k] < |groups|
    requires |ties| == |groups| && Good(from, labels) && forall s :: 0 <= s < 3 ==> |targets[s]| == labels
    ensures Good(sp, labels)
  {
    if order == [] then from
    else
      var sp, g := PutRest(groups, labels, targets, pinned, ties, order[..|order| - 1], from), order[|order| - 1];
      if g in pinned then sp else Put(sp, Choice(sp, groups[g], targets, labels, ties[g]), groups[g], labels)
  }

  function Attempted(groups: seq<Group>, labels: nat, targets: Targets, pinned: set<nat>, a: Attempt): (sp: Split)
    requires Fits(a, groups)
    requires forall s :: 0 <= s < 3 ==> |targets[s]| == labels
    ensures Good(sp, labels)
  {
    PutRest(groups, labels, targets, pinned, a.ties, a.order, PutPinned(groups, labels, pinned, a.order))
  }

  // ----- what an attempt gives -----

  /** The groups visited, in order, that were put in split `s`. */
  function Gathered(groups: seq<Group>, visited: seq<nat>, choice: seq<nat>, s: nat): seq<Row>
    requires |choice| == |groups| && forall k :: 0 <= k < |visited| ==> visited[k] < |groups|
  {
    if visited == [] then []
    else
      var g := visited[|visited| - 1];
      Gathered(groups, visited[..|visited| - 1], choice, s) + if choice[g] == s then groups[g] else []
  }

  /** Each split is made of whole groups, each put in one split; pinned groups are in eval. */
  ghost predicate MadeOf(groups: seq<Group>, pinned: set<nat>, visited: seq<nat>, choice: seq<nat>,
      parts: seq<seq<Row>>) {
    && |choice| == |groups| && |parts| == 3
    && (forall k :: 0 <= k < |visited| ==> visited[k] < |groups| && choice[visited[k]] < 3)
    && (forall k :: 0 <= k < |visited| && visited[k] in pinned ==> choice[visited[k]] == Eval)
    && (forall s :: 0 <= s < 3 ==> parts[s] == Gathered(groups, visited, choice, s))
  }

  lemma {:induction false} GatheredOthers(groups: seq<Group>, visited: seq<nat>, choice: seq<nat>, g: nat, c: nat,
      s: nat)
    requires |choice| == |groups| && g < |groups| && g !in visited
    requires forall k :: 0 <= k < |visited| ==> visited[k] < |groups|
    ensures Gathered(groups, visited, choice[g := c], s) == Gathered(groups, visited, choice, s)
  {
    if visited != [] {
      GatheredOthers(groups, visited[..|visited| - 1], choice, g, c, s);
    }
  }

  /** One more group is put in a split. */
  lemma MadeOfOneMore(groups: seq<Group>, pinned: set<nat>, visited: seq<nat>, choice: seq<nat>, sp: Split, g: nat,
      c: nat, labels: nat)
    requires MadeOf(groups, pinned, visited, choice, sp.parts) && Good(sp, labels)
    requires g < |groups| && g !in visited && c < 3 && (g in pinned ==> c == Eval)
    ensures MadeOf(groups, pinned, visited + [g], choice[g := c], Put(sp, c, groups[g], labels).parts)
  {
    var choice' := choice[g := c];
    forall s: nat | s < 3
      ensures Put(sp, c, groups[g], labels).parts[s] == Gathered(groups, visited + [g], choice', s)
    {
      GatheredOthers(groups, visited, choice, g, c, s);
      assert (visited + [g])[..|visited + [g]| - 1] == visited;
    }
    forall k | 0 <= k < |visited + [g]| ensures choice'[(visited + [g])[k]] < 3 {
      assert k < |visited| ==> (visited + [g])[k] == visited[k];
    }
    forall k | 0 <= k < |visited + [g]| && (visited + [g])[k] in pinned ensures choice'[(visited + [g])[k]] == Eval {
      assert k < |visited| ==> (visited + [g])[k] == visited[k];
    }
  }

  /** The groups of an order that are pinned, or that are not. */
  function Only(order: seq<nat>, pinned: set<nat>, want: bool): (r: seq<nat>)
    ensures forall g :: g in r <==> g in order && (g in pinned) == want
  {
    if order == [] then []
    else
      var r, g := Only(order[..|order| - 1], pinned, want), order[|order| - 1];
      assert order == order[..|order| - 1] + [g];
      if (g in pinned) == want then r + [g] else r
  }

  lemma {:induction false} PinnedMadeOf(groups: seq<Group>, labels: nat, pinned: set<nat>,
      order: seq<nat>) returns (choice: seq<nat>)
    requires (forall k :: 0 <= k < |order| ==> order[k] < |groups|) && forall j, k :: 0 <= j < k < |order| ==>
        order[j] != order[k]
    ensures MadeOf(groups, pinned, Only(order, pinned, true), choice, PutPinned(groups, labels, pinned, order).parts)
  {
    if order == [] {
      choice := seq(|groups|, g => 0);
    } else {
      var init, g := order[..|order| - 1], order[|order| - 1];
      choice := PinnedMadeOf(groups, labels, pinned, init);
      if g in pinned {
        assert g !in init;
        MadeOfOneMore(groups, pinned, Only(init, pinned, true), choice, PutPinned(groups, labels, pinned, init), g, Eval, labels);
        choice := choice[g := Eval];
      }
    }
  }

  lemma {:induction false} RestMadeOf(groups: seq<Group>, labels: nat, targets: Targets, pinned: set<nat>,
      ties: seq<Ties>, order: seq<nat>, from: Split, visited: seq<nat>, choice0: seq<nat>)
    returns (choice: seq<nat>)
    requires (forall k :: 0 <= k < |order| ==> order[k] < |groups|) && forall j, k :: 0 <= j < k < |order| ==>
        order[j] != order[k]
    requires |ties| == |groups| && Good(from, labels) && forall s :: 0 <= s < 3 ==> |targets[s]| == labels
    requires MadeOf(groups, pinned, visited, choice0, from.parts) && forall g :: g in visited ==> g in pinned
    ensures MadeOf(groups, pinned, visited + Only(order, pinned, false), choice,
                   PutRest(groups, labels, targets, pinned, ties, order, from).parts)
  {
    if order == [] {
      choice := choice0;
      assert visited + Only(order, pinned, false) == visited;
    } else {
      var init, g := order[..|order| - 1], order[|order| - 1];
      choice := RestMadeOf(groups, labels, targets, pinned, ties, init, from, visited, choice0);
      var sp := PutRest(groups, labels, targets, pinned, ties, init, from);
      if g !in pinned {
        var c := Choice(sp, groups[g], targets, labels, ties[g]);
        assert g !in init && g !in visited;
        MadeOfOneMore(groups, pinned, visited + Only(init, pinned, false), choice, sp, g, c, labels);
        assert visited + Only(order, pinned, false) == (visited + Only(init, pinned, false)) + [g];
        choice := choice[g := c];
      }
    }
  }

  /** The order in which the groups are put: pinned ones first. */
  function Visits(order: seq<nat>, pinned: set<nat>): seq<nat> {
    Only(order, pinned, true) + Only(order, pinned, false)
  }

  /** In every attempt each group is put whole into one split, and the pinned ones into eval. */
  lemma AttemptKeepsGroupsWhole(groups: seq<Group>, labels: nat, targets: Targets, pinned: set<nat>, a: Attempt)
    returns (choice: seq<nat>)
    requires Drawn(a, groups) && forall s :: 0 <= s < 3 ==> |targets[s]| == labels
    ensures MadeOf(groups, pinned, Visits(a.order, pinned), choice, Attempted(groups, labels, targets, pinned, a).parts)
  {
    var choice0 := PinnedMadeOf(groups, labels, pinned, a.order);
    choice := RestMadeOf(groups, labels, targets, pinned, a.ties, a.order, PutPinned(groups, labels, pinned, a.order),
                         Only(a.order, pinned, true), choice0);
  }

  // ----- every row once -----

  function RowsOf(groups: seq<Group>, visited: seq<nat>): multiset<Row>
    requires forall k :: 0 <= k < |visited| ==> visited[k] < |groups|
  {
    if visited == [] then multiset{}
    else RowsOf(groups, visited[..|visited| - 1]) + multiset(groups[visited[|visited| - 1]])
  }

  lemma {:induction false} GatheredTogether(groups: seq<Group>, visited: seq<nat>, choice: seq<nat>)
    requires |choice| == |groups| && forall k :: 0 <= k < |visited| ==> visited[k] < |groups| && choice[visited[k]] < 3
    ensures multiset(Gathered(groups, visited, choice, 0)) + multiset(Gathered(groups, visited, choice, 1))
            + multiset(Gathered(groups, visited, choice, 2)) == RowsOf(groups, visited)
  {
    if visited != [] {
      var init, g := visited[..|visited| - 1], visited[|visited| - 1];
      GatheredTogether(groups, init, choice);
      assert choice[visited[|visited| - 1]] < 3;
    }
  }

  lemma {:induction false} RowsJoined(groups: seq<Group>, a: seq<nat>, b: seq<nat>)
    requires (forall k :: 0 <= k < |a| ==> a[k] < |groups|) && forall k :: 0 <= k < |b| ==> b[k] < |groups|
    ensures forall k :: 0 <= k < |a + b| ==> (a + b)[k] < |groups|
    ensures RowsOf(groups, a + b) == RowsOf(groups, a) + RowsOf(groups, b)
  {
    if b == [] {
      assert a + b == a;
    } else {
      RowsJoined(groups, a, b[..|b| - 1]);
      assert (a + b)[..|a + b| - 1] == a + b[..|b| - 1];
    }
  }

  lemma OnlyInRange(order: seq<nat>, pinned: set<nat>, want: bool, n: nat)
    requires InRange(order, n)
    ensures InRange(Only(order, pinned, want), n)
  {
    forall k | 0 <= k < |Only(order, pinned, want)| ensures Only(order, pinned, want)[k] < n {
      assert Only(order, pinned, want)[k] in order;
    }
  }

  lemma {:induction false} PinnedFirstKeepsRows(groups: seq<Group>, order: seq<nat>, pinned: set<nat>)
    requires InRange(order, |groups|)
    ensures InRange(Visits(order, pinned), |groups|)
    ensures RowsOf(groups, Visits(order, pinned)) == RowsOf(groups, order)
  {
    OnlyInRange(order, pinned, true, |groups|);
    OnlyInRange(order, pinned, false, |groups|);
    RowsJoined(groups, Only(order, pinned, true), Only(order, pinned, false));
    if order != [] {
      var init := order[..|order| - 1];
      PinnedFirstKeepsRows(groups, init, pinned);
      OnlyInRange(init, pinned, true, |groups|);
      OnlyInRange(init, pinned, false, |groups|);
      RowsJoined(groups, Only(init, pinned, true), Only(init, pinned, false));
      OneMoreOnly(groups, order, pinned);
    }
  }

  lemma OneMoreOnly(groups: seq<Group>, order: seq<nat>, pinned: set<nat>)
    requires order != [] && InRange(order, |groups|)
    ensures InRange(Only(order, pinned, true), |groups|) && InRange(Only(order, pinned, false), |groups|)
    ensures var init, g := order[..|order| - 1], order[|order| - 1];
            && InRange(Only(init, pinned, true), |groups|) && InRange(Only(init, pinned, false), |groups|)
            && RowsOf(groups, Only(order, pinned, true)) + RowsOf(groups, Only(order, pinned, false))
               == RowsOf(groups, Only(init, pinned, true)) + RowsOf(groups, Only(init, pinned, false)) + multiset(groups[g])
  {
    var init := order[..|order| - 1];
    OnlyInRange(order, pinned, true, |groups|);
    OnlyInRange(order, pinned, false, |groups|);
    OnlyInRange(init, pinned, true, |groups|);
    OnlyInRange(init, pinned, false, |groups|);
  }

  lemma {:induction false} RowsWithout(groups: seq<Group>, order: seq<nat>, k: nat)
    requires k < |order| && InRange(order, |groups|)
    ensures InRange(order[..k] + order[k + 1..], |groups|)
    ensures RowsOf(groups, order) == RowsOf(groups, order[..k] + order[k + 1..]) + multiset(groups[order[k]])
  {
    var rest := order[..k] + order[k + 1..];
    if k == |order| - 1 {
      assert rest == order[..k];
    } else {
      var init := order[..|order| - 1];
      RowsWithout(groups, init, k);
      assert rest[..|rest| - 1] == init[..k] + init[k + 1..];
      assert init[k] == order[k];
    }
  }

  /** Taking the last group out of a permutation leaves a permutation of the others. */
  lemma PermutationWithout(order: seq<nat>, n: nat, k: nat)
    requires Permutation(order, n + 1) && k < |order| && order[k] == n
    ensures Permutation(order[..k] + order[k + 1..], n)
  {
    var rest := order[..k] + order[k + 1..];
    forall g: nat | g < n ensures g in rest {
      assert g in order;
      var j :| 0 <= j < |order| && order[j] == g;
      assert rest[if j < k then j else j - 1] == g;
    }
    forall j: nat | j < |rest| ensures rest[j] < n {
      assert rest[j] == order[if j < k then j else j + 1];
    }
  }

  lemma {:induction false} PermutationKeepsRows(groups: seq<Group>, order: seq<nat>)
    requires Permutation(order, |groups|)
    ensures RowsOf(groups, order) == multiset(Flat(groups))
    decreases |groups|
  {
    if groups != [] {
      var n := |groups| - 1;
      assert n in order;
      var k :| 0 <= k < |order| && order[k] == n;
      var rest := order[..k] + order[k + 1..];
      RowsWithout(groups, order, k);
      PermutationWithout(order, n, k);
      PermutationKeepsRows(groups[..n], rest);
      FewerGroups(groups, n, rest);
      hide Permutation, RowsOf;
    } else {
      assert order == [];
    }
  }

  lemma {:induction false} FewerGroups(groups: seq<Group>, n: nat, visited: seq<nat>)
    requires n <= |groups| && forall k :: 0 <= k < |visited| ==> visited[k] < n
    ensures RowsOf(groups[..n], visited) == RowsOf(groups, visited)
  {
    if visited != [] { FewerGroups(groups, n, visited[..|visited| - 1]); }
  }

  /** In every attempt every row is in exactly one split, once. */
  lemma AttemptKeepsEveryRow(groups: seq<Group>, labels: nat, targets: Targets, pinned: set<nat>, a: Attempt)
    requires Drawn(a, groups) && forall s :: 0 <= s < 3 ==> |targets[s]| == labels
    ensures var r := Attempted(groups, labels, targets, pinned, a).parts;
            |r| == 3 && multiset(r[0]) + multiset(r[1]) + multiset(r[2]) == multiset(Flat(groups))
  {
    var choice := AttemptKeepsGroupsWhole(groups, labels, targets, pinned, a);
    GatheredTogether(groups, Visits(a.order, pinned), choice);
    PinnedFirstKeepsRows(groups, a.order, pinned);
    PermutationKeepsRows(groups, a.order);
  }

  // ----- the whole split -----

  lemma {:induction false} OnlyOnce(order: seq<nat>, pinned: set<nat>, want: bool)
    requires forall j, k :: 0 <= j < k < |order| ==> order[j] != order[k]
    ensures forall j, k :: 0 <= j < k < |Only(order, pinned, want)| ==>
        Only(order, pinned, want)[j] != Only(order, pinned, want)[k]
    ensures |Only(order, pinned, true)| + |Only(order, pinned, false)| == |order|
  {
    if order != [] {
      var init, g := order[..|order| - 1], order[|order| - 1];
      OnlyOnce(init, pinned, want);
      assert g !in init;
      assert g !in Only(init, pinned, want);
    }
  }

  lemma VisitsOnce(order: seq<nat>, pinned: set<nat>, n: nat)
    requires Permutation(order, n)
    ensures Permutation(Visits(order, pinned), n)
  {
    var yes, no := Only(order, pinned, true), Only(order, pinned, false);
    OnlyOnce(order, pinned, true);
    OnlyOnce(order, pinned, false);
    OnlyInRange(order, pinned, true, n);
    OnlyInRange(order, pinned, false, n);
    forall g: nat | g < n ensures g in yes + no { assert g in order; }
    forall j, k | 0 <= j < |yes| && 0 <= k < |no| ensures yes[j] != no[k] {
      assert yes[j] in yes && no[k] in no;
    }
  }

  /** Some way of putting every group whole into one split, pinned ones into eval, gives these lists. */
  ghost predicate GroupsWhole(groups: seq<Group>, pinned: set<nat>, parts: seq<seq<Row>>) {
    exists visited, choice :: Permutation(visited, |groups|) && MadeOf(groups, pinned, visited, choice, parts)
  }

  function TargetsFor(groups: seq<Group>, labels: nat): (t: Targets)
    ensures forall s :: 0 <= s < 3 ==> |t[s]| == labels
  {
    var counts := Counts(Flat(groups), labels);
    seq(3, s requires 0 <= s < 3 => seq(labels, l requires 0 <= l < labels => counts[l] as real * Ratio(s)))
  }

  /** Every label occurs in every split. */
  predicate Covers(observed: Observed, labels: nat)
    requires forall s :: 0 <= s < 3 ==> |observed[s]| == labels
  {
    forall s, l :: 0 <= s < 3 && 0 <= l < labels ==> observed[s][l] > 0
  }

  function Outcome(groups: seq<Group>, labels: nat, pinned: set<nat>, a: Attempt): (sp: Split)
    requires Fits(a, groups)
    ensures Good(sp, labels) && Shaped(sp.observed, TargetsFor(groups, labels), labels)
  {
    Attempted(groups, labels, TargetsFor(groups, labels), pinned, a)
  }

  function Score(groups: seq<Group>, labels: nat, pinned: set<nat>, a: Attempt): real
    requires Fits(a, groups)
  {
    Objective(Outcome(groups, labels, pinned, a).observed, TargetsFor(groups, labels), labels)
  }

  predicate Covering(groups: seq<Group>, labels: nat, pinned: set<nat>, a: Attempt)
    requires Fits(a, groups)
  {
    Covers(Outcome(groups, labels, pinned, a).observed, labels)
  }

  /** The two loops over the groups, with their running lists and counters. */
  method RunAttempt(groups: seq<Group>, labels: nat, targets: Targets, pinned: set<nat>, a: Attempt) returns (sp: Split)
    requires Fits(a, groups) && forall s :: 0 <= s < 3 ==> |targets[s]| == labels
    ensures sp == Attempted(groups, labels, targets, pinned, a)
  {
    sp := Empty(labels);
    for k := 0 to |a.order|
      invariant sp == PutPinned(groups, labels, pinned, a.order[..k])
    {
      assert a.order[..k + 1][..k] == a.order[..k];
      if a.order[k] in pinned {
        sp := Put(sp, Eval, groups[a.order[k]], labels);
      }
    }
    assert a.order[..|a.order|] == a.order;
    ghost var from := sp;
    for k := 0 to |a.order|
      invariant Good(sp, labels)
      invariant sp == PutRest(groups, labels, targets, pinned, a.ties, a.order[..k], from)
    {
      assert a.order[..k + 1][..k] == a.order[..k];
      var g := a.order[k];
      if g !in pinned {
        sp := Put(sp, Choice(sp, groups[g], targets, labels, a.ties[g]), groups[g], labels);
      }
    }
  }

  datatype Result = Ok(parts: seq<seq<Row>>) | ClassMissing | TooFewGroups | CannotCover

  /** The classes with rows are exactly those of the contract. */
  predicate ClassesPresent(groups: seq<Group>, labels: nat) {
    && (forall r :: r in Flat(groups) ==> r.primary < labels)
    && (forall l :: 0 <= l < labels ==> Count(Flat(groups), l) > 0)
  }

  predicate GroupsSuffice(groups: seq<Group>, labels: nat) {
    forall l :: 0 <= l < labels ==> GroupsWith(groups, l) >= 3
  }

  ghost predicate AllDrawn(attempts: seq<Attempt>, groups: seq<Group>) {
    forall i :: 0 <= i < |attempts| ==> Fits(attempts[i], groups) && Drawn(attempts[i], groups)
  }

  /** Attempt `b` covers, and attempt `i` does not beat it: it does not cover, or scores more, or as much but later. */
  ghost predicate NotBeaten(groups: seq<Group>, labels: nat, pinned: set<nat>, b: Attempt, a: Attempt, earlier: bool)
    requires Fits(a, groups) && Fits(b, groups)
  {
    Covering(groups, labels, pinned, a) ==>
      var best, other := Score(groups, labels, pinned, b), Score(groups, labels, pinned, a);
      best < other || (best == other && !earlier)
  }

  /** The attempt chosen among the first `n`: it covers, and no other beats it. */
  ghost predicate Best(groups: seq<Group>, labels: nat, pinned: set<nat>, attempts: seq<Attempt>, n: nat, best: nat)
    requires n <= |attempts| && AllDrawn(attempts, groups)
  {
    && best < n && Covering(groups, labels, pinned, attempts[best])
    && forall i :: 0 <= i < n ==> NotBeaten(groups, labels, pinned, attempts[best], attempts[i], i < best)
  }

  ghost predicate NoneCovers(groups: seq<Group>, labels: nat, pinned: set<nat>, attempts: seq<Attempt>, n: nat)
    requires n <= |attempts| && AllDrawn(attempts, groups)
  {
    forall i :: 0 <= i < n ==> !Covering(groups, labels, pinned, attempts[i])
  }

  /** The lists: every row once, groups whole, pinned groups in eval, every label in every split. */
  ghost predicate LeakageFree(groups: seq<Group>, labels: nat, pinned: set<nat>, parts: seq<seq<Row>>) {
    && |parts| == 3 && multiset(parts[0]) + multiset(parts[1]) + multiset(parts[2]) == multiset(Flat(groups))
    && GroupsWhole(groups, pinned, parts)
    && forall s, l :: 0 <= s < 3 && 0 <= l < labels ==> Count(parts[s], l) > 0
  }

  lemma {:induction false} AttemptLeakageFree(groups: seq<Group>, labels: nat, pinned: set<nat>, a: Attempt)
    requires Drawn(a, groups) && Covering(groups, labels, pinned, a)
    ensures LeakageFree(groups, labels, pinned, Outcome(groups, labels, pinned, a).parts)
  {
    var sp := Outcome(groups, labels, pinned, a);
    AttemptKeepsEveryRow(groups, labels, TargetsFor(groups, labels), pinned, a);
    var choice := AttemptKeepsGroupsWhole(groups, labels, TargetsFor(groups, labels), pinned, a);
    VisitsOnce(a.order, pinned, |groups|);
    forall s, l | 0 <= s < 3 && 0 <= l < labels ensures Count(sp.parts[s], l) > 0 {
      assert sp.observed[s][l] > 0;
    }
  }

  lemma {:induction false} BestNext(groups: seq<Group>, labels: nat, pinned: set<nat>, attempts: seq<Attempt>, i: nat,
      found: bool, best: nat)
    requires i < |attempts| && AllDrawn(attempts, groups)
    requires if found then Best(groups, labels, pinned, attempts, i, best)
        else NoneCovers(groups, labels, pinned, attempts, i)
    ensures if !Covering(groups, labels, pinned, attempts[i]) then
              (if found then Best(groups, labels, pinned, attempts, i + 1, best)
               else NoneCovers(groups, labels, pinned, attempts, i + 1))
            else if found && Score(groups, labels, pinned, attempts[i]) >= Score(groups, labels, pinned, attempts[best])
            then Best(groups, labels, pinned, attempts, i + 1, best)
            else Best(groups, labels, pinned, attempts, i + 1, i)
  {
    hide Covering, Score;
    if found {
      forall j | 0 <= j < i
        ensures Score(groups, labels, pinned, attempts[i]) < Score(groups, labels, pinned, attempts[best]) ==>
                  NotBeaten(groups, labels, pinned, attempts[i], attempts[j], true)
      {
        assert NotBeaten(groups, labels, pinned, attempts[best], attempts[j], j < best);
      }
    }
  }

  /**
   `split_groups`: on success the split is free of leakage, and no covering attempt has a smaller objective; it fails
   exactly when a class is missing or has too few groups, or when no attempt covers.
   */
  method SplitGroups(groups: seq<Group>, labels: nat, pinned: set<nat>, attempts: seq<Attempt>) returns (r: Result)
    requires AllDrawn(attempts, groups)
    ensures r.ClassMissing? <==> !ClassesPresent(groups, labels)
    ensures r.TooFewGroups? <==> ClassesPresent(groups, labels) && !GroupsSuffice(groups, labels)
    ensures r.CannotCover? <==> ClassesPresent(groups, labels) && GroupsSuffice(groups, labels)
                                && NoneCovers(groups, labels, pinned, attempts, |attempts|)
    ensures r.Ok? ==> LeakageFree(groups, labels, pinned, r.parts)
                      && exists b: nat :: Best(groups, labels, pinned, attempts, |attempts|, b)
                                          && r.parts == Outcome(groups, labels, pinned, attempts[b]).parts
  {
    if !ClassesPresent(groups, labels) { return ClassMissing; }
    if !GroupsSuffice(groups, labels) { return TooFewGroups; }
    var targets := TargetsFor(groups, labels);
    var found, least, parts := false, 0.0, [];
    ghost var best: nat := 0;
    for i := 0 to |attempts|
      invariant if found then Best(groups, labels, pinned, attempts, i, best)
          else NoneCovers(groups, labels, pinned, attempts, i)
      invariant found ==> least == Score(groups, labels, pinned, attempts[best])
                          && parts == Outcome(groups, labels, pinned, attempts[best]).parts
    {
      var sp := RunAttempt(groups, labels, targets, pinned, attempts[i]);
      BestNext(groups, labels, pinned, attempts, i, found, best);
      if Covers(sp.observed, labels) {
        var objective := Objective(sp.observed, targets, labels);
        if !found || objective < least {
          found, least, parts, best := true, objective, sp.parts, i;
        }
      }
    }
    if !found { return CannotCover; }
    AttemptLeakageFree(groups, labels, pinned, attempts[best]);
    return Ok(parts);
  }
}
