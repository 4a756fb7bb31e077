/** Table cells between ruling lines. */
module RulingGrid {
  import opened UnionFind
  import opened Components

  // Merging of table cells between ruling lines. Whether two neighbouring cells have no line between them is a parameter; cell
  // (r, c) is position r * cols + c.

  datatype Grid = Grid(rows: nat, cols: nat, openRight: (nat, nat) -> bool, openDown: (nat, nat) -> bool)

  /** `r * n`, as repeated addition. */
  function Times(r: nat, n: nat): nat { if r == 0 then 0 else Times(r - 1, n) + n }

  lemma {:induction false} TimesIsProduct(r: nat, n: nat)
    ensures Times(r, n) == r * n
  {
    if r > 0 { TimesIsProduct(r - 1, n); }
  }

  function Size(g: Grid): nat { Times(g.rows, g.cols) }

  /** The position of a cell. */
  function At(g: Grid, r: nat, c: nat): nat { Times(r, g.cols) + c }

  function Row(g: Grid, v: nat): nat { if g.cols == 0 || v < g.cols then 0 else 1 + Row(g, v - g.cols) }
  function Col(g: Grid, v: nat): nat { if g.cols == 0 || v < g.cols then v else Col(g, v - g.cols) }

  lemma {:induction false} TimesMonotone(a: nat, b: nat, n: nat)
    requires a <= b
    ensures Times(a, n) <= Times(b, n)
    decreases b
  {
    if a < b { TimesMonotone(a, b - 1, n); }
  }

  lemma {:induction false} Cell(g: Grid, r: nat, c: nat)
    requires c < g.cols
    ensures Row(g, At(g, r, c)) == r && Col(g, At(g, r, c)) == c
    ensures r < g.rows ==> At(g, r, c) < Size(g)
    decreases r
  {
    if r > 0 { Cell(g, r - 1, c); }
    if r < g.rows { TimesMonotone(r + 1, g.rows, g.cols); }
  }

  lemma {:induction false} Position(g: Grid, v: nat)
    requires g.cols > 0
    ensures Col(g, v) < g.cols && v == At(g, Row(g, v), Col(g, v))
    decreases v
  {
    if v >= g.cols { Position(g, v - g.cols); }
  }

  lemma {:induction false} NoCells(r: nat)
    ensures Times(r, 0) == 0
  {
    if r > 0 { NoCells(r - 1); }
  }

  lemma {:induction false} CellOf(g: Grid, v: nat)
    requires v < Size(g)
    ensures Row(g, v) < g.rows && Col(g, v) < g.cols && v == At(g, Row(g, v), Col(g, v))
  {
    if g.cols == 0 { NoCells(g.rows); }
    Position(g, v);
    if Row(g, v) >= g.rows { TimesMonotone(g.rows, Row(g, v), g.cols); }
  }

  predicate OpenBetween(g: Grid, a: nat, b: nat) {
    a < Size(g) && b < Size(g)
    && ((Row(g, b) == Row(g, a) && Col(g, b) == Col(g, a) + 1 && g.openRight(Row(g, a), Col(g, a)))
        || (Row(g, b) == Row(g, a) + 1 && Col(g, b) == Col(g, a) && g.openDown(Row(g, a), Col(g, a))))
  }

  function Open(g: Grid): Relation {
    (a: nat, b: nat) => OpenBetween(g, a, b)
  }

  // ----- the loops -----

  /** The open neighbours of cell (r, c) that the loops have joined before they come to cell (r', c'). */
  predicate Passed(g: Grid, a: nat, r: nat, c: nat) {
    Row(g, a) < r || (Row(g, a) == r && Col(g, a) < c)
  }

  ghost predicate CompleteBefore(g: Grid, rep: seq<nat>, r: nat, c: nat) {
    |rep| == Size(g) && forall a: nat, b: nat :: Passed(g, a, r, c) && OpenBetween(g, a, b) ==> rep[a] == rep[b]
  }

  method JoinOpen(g: Grid, forest: Forest, r: nat, c: nat)
    requires r < g.rows && c < g.cols && forest.Valid() && forest.parent.Length == Size(g)
    requires Sound(forest.rep, Open(g)) && CompleteBefore(g, forest.rep, r, c)
    modifies forest, forest.parent
    ensures forest.Valid() && Sound(forest.rep, Open(g)) && CompleteBefore(g, forest.rep, r, c + 1)
  {
    hide At, Size, OpenBetween, CompleteBefore;
    ghost var rep0 := forest.rep;
    assert |rep0| == Size(g);
    Cell(g, r, c);
    if c + 1 < g.cols && g.openRight(r, c) {
      Cell(g, r, c + 1);
      NextRight(g, r, c);
      MergedSound(forest.rep, Open(g), At(g, r, c), At(g, r, c + 1));
      forest.Join(At(g, r, c), At(g, r, c + 1));
    }
    if r + 1 < g.rows && g.openDown(r, c) {
      Cell(g, r + 1, c);
      NextDown(g, r, c);
      MergedSound(forest.rep, Open(g), At(g, r, c), At(g, r + 1, c));
      forest.Join(At(g, r, c), At(g, r + 1, c));
    }
    CellFinished(g, rep0, forest.rep, r, c);
  }

  lemma NextRight(g: Grid, r: nat, c: nat)
    requires r < g.rows && c + 1 < g.cols && g.openRight(r, c)
    ensures Adjacent(Open(g), At(g, r, c), At(g, r, c + 1))
  {
    Cell(g, r, c);
    Cell(g, r, c + 1);
    assert OpenBetween(g, At(g, r, c), At(g, r, c + 1));
  }

  lemma NextDown(g: Grid, r: nat, c: nat)
    requires r + 1 < g.rows && c < g.cols && g.openDown(r, c)
    ensures Adjacent(Open(g), At(g, r, c), At(g, r + 1, c))
  {
    Cell(g, r, c);
    Cell(g, r + 1, c);
    assert OpenBetween(g, At(g, r, c), At(g, r + 1, c));
  }

  lemma CellFinished(g: Grid, rep0: seq<nat>, rep: seq<nat>, r: nat, c: nat)
    requires r < g.rows && c < g.cols && CompleteBefore(g, rep0, r, c) && |rep| == |rep0|
    requires forall a: nat, b: nat :: a < |rep0| && b < |rep0| && rep0[a] == rep0[b] ==> rep[a] == rep[b]
    requires At(g, r, c) < |rep|
    requires c + 1 < g.cols && g.openRight(r, c) ==> At(g, r, c + 1) < |rep| && rep[At(g, r, c)] == rep[At(g, r, c + 1)]
    requires r + 1 < g.rows && g.openDown(r, c) ==> At(g, r + 1, c) < |rep| && rep[At(g, r, c)] == rep[At(g, r + 1, c)]
    ensures CompleteBefore(g, rep, r, c + 1)
  {
    forall a: nat, b: nat | Passed(g, a, r, c + 1) && OpenBetween(g, a, b) ensures rep[a] == rep[b] {
      CellOf(g, a);
      CellOf(g, b);
      if Passed(g, a, r, c) { assert rep0[a] == rep0[b]; }
    }
  }

  /** The two nested loops over the cells. */
  method JoinCells(g: Grid) returns (forest: Forest)
    ensures fresh(forest) && fresh(forest.parent) && forest.Valid() && forest.parent.Length == Size(g)
    ensures Sound(forest.rep, Open(g)) && Complete(forest.rep, Open(g))
  {
    forest := new Forest(Size(g));
    EachAlone(forest.rep, Open(g));
    for r := 0 to g.rows
      invariant fresh(forest) && fresh(forest.parent) && forest.Valid() && forest.parent.Length == Size(g)
      invariant Sound(forest.rep, Open(g)) && CompleteBefore(g, forest.rep, r, 0)
    {
      for c := 0 to g.cols
        invariant fresh(forest) && fresh(forest.parent) && forest.Valid() && forest.parent.Length == Size(g)
        invariant Sound(forest.rep, Open(g)) && CompleteBefore(g, forest.rep, r, c)
      {
        JoinOpen(g, forest, r, c);
      }
      RowFinished(g, forest.rep, r);
    }
    AllFinished(g, forest.rep);
  }

  lemma RowFinished(g: Grid, rep: seq<nat>, r: nat)
    requires CompleteBefore(g, rep, r, g.cols)
    ensures CompleteBefore(g, rep, r + 1, 0)
  {
    forall a: nat, b: nat | Passed(g, a, r + 1, 0) && OpenBetween(g, a, b) ensures rep[a] == rep[b] {
      CellOf(g, a);
      assert Passed(g, a, r, g.cols);
    }
  }

  lemma AllFinished(g: Grid, rep: seq<nat>)
    requires CompleteBefore(g, rep, g.rows, 0)
    ensures Complete(rep, Open(g))
  {
    forall a: nat, b: nat | a < |rep| && b < |rep| && Open(g)(a, b) ensures rep[a] == rep[b] {
      assert OpenBetween(g, a, b);
      CellOf(g, a);
      assert Passed(g, a, g.rows, 0);
    }
  }

  // ----- rectangles -----

  function Line(g: Grid, v: nat, byRow: bool): nat { if byRow then Row(g, v) else Col(g, v) }

  function Lines(g: Grid, group: seq<nat>, byRow: bool): set<nat> { set v | v in group :: Line(g, v, byRow) }
  function RowsIn(g: Grid, group: seq<nat>): set<nat> { Lines(g, group, true) }
  function ColsIn(g: Grid, group: seq<nat>): set<nat> { Lines(g, group, false) }
  function CellsIn(g: Grid, group: seq<nat>): set<(nat, nat)> { set v | v in group :: (Row(g, v), Col(g, v)) }
  function Product(rows: set<nat>, cols: set<nat>): set<(nat, nat)> { set r, c | r in rows && c in cols :: (r, c) }

  /** The group is all cells of some rows and columns that follow one another. */
  predicate Spans(g: Grid, group: seq<nat>, r0: nat, r1: nat, c0: nat, c1: nat) {
    && r0 <= r1 < g.rows && c0 <= c1 < g.cols
    && forall v :: 0 <= v < Size(g) ==> (v in group <==> r0 <= Row(g, v) <= r1 && c0 <= Col(g, v) <= c1)
  }

  ghost predicate Rectangle(g: Grid, group: seq<nat>) {
    exists r0, r1, c0, c1 :: Spans(g, group, r0, r1, c0, c1)
  }

  lemma {:induction false} ProductSize(rows: set<nat>, cols: set<nat>)
    ensures |Product(rows, cols)| == Times(|rows|, |cols|)
  {
    if rows == {} {
      assert Product(rows, cols) == {};
    } else {
      var r :| r in rows;
      ProductSize(rows - {r}, cols);
      OneRowSize(r, cols);
      assert Product(rows, cols) == Product(rows - {r}, cols) + Product({r}, cols);
      assert Product(rows - {r}, cols) !! Product({r}, cols);
      assert |rows - {r}| == |rows| - 1;
    }
  }

  lemma {:induction false} OneRowSize(r: nat, cols: set<nat>)
    ensures |Product({r}, cols)| == |cols|
  {
    if cols == {} {
      assert Product({r}, cols) == {};
    } else {
      var c :| c in cols;
      OneRowSize(r, cols - {c});
      assert Product({r}, cols) == Product({r}, cols - {c}) + {(r, c)};
    }
  }

  /** Different positions are different cells. */
  lemma DifferentCells(g: Grid, u: nat, v: nat)
    requires u < Size(g) && v < Size(g) && Row(g, u) == Row(g, v) && Col(g, u) == Col(g, v)
    ensures u == v
  {
    CellOf(g, u);
    CellOf(g, v);
  }

  lemma OneMoreCell(g: Grid, init: seq<nat>, v: nat)
    requires v !in init && v < Size(g) && forall u :: u in init ==> u < Size(g)
    ensures CellsIn(g, init + [v]) == CellsIn(g, init) + {(Row(g, v), Col(g, v))}
    ensures (Row(g, v), Col(g, v)) !in CellsIn(g, init)
  {
    hide Row, Col, Size;
    forall u | u in init ensures (Row(g, u), Col(g, u)) != (Row(g, v), Col(g, v)) {
      if Row(g, u) == Row(g, v) && Col(g, u) == Col(g, v) { DifferentCells(g, u, v); }
    }
  }

  lemma {:induction false} CellsSize(g: Grid, group: seq<nat>)
    requires Ascending(group) && forall v :: v in group ==> v < Size(g)
    ensures |CellsIn(g, group)| == |group|
  {
    hide Row, Col, Size;
    if group == [] {
      assert CellsIn(g, group) == {};
    } else {
      var init, v := group[..|group| - 1], group[|group| - 1];
      AscendingInit(group);
      hide Ascending, CellsIn;
      CellsSize(g, init);
      OneMoreCell(g, init, v);
    }
  }

  lemma AscendingInit(group: seq<nat>)
    requires group != [] && Ascending(group)
    ensures var init, v := group[..|group| - 1], group[|group| - 1];
            Ascending(init) && v !in init && v in group && group == init + [v] && forall u :: u in init ==> u in group
  {
  }

  /** The sizes agree exactly when every row of the group meets every column of it. */
  lemma SizesAgreeExactlyWhenFull(g: Grid, group: seq<nat>)
    requires Ascending(group) && forall v :: v in group ==> v < Size(g)
    ensures Times(|RowsIn(g, group)|, |ColsIn(g, group)|) == |group| <==>
        CellsIn(g, group) == Product(RowsIn(g, group), ColsIn(g, group))
  {
    CellsSize(g, group);
    ProductSize(RowsIn(g, group), ColsIn(g, group));
    SubsetSize(CellsIn(g, group), Product(RowsIn(g, group), ColsIn(g, group)));
  }

  lemma SubsetSize<T>(a: set<T>, b: set<T>)
    requires a <= b
    ensures |a| == |b| <==> a == b
  {
    assert b == a + (b - a);
    if |a| == |b| { assert b - a == {}; }
  }

  /** Along a walk between open neighbours the row changes by at most one, so no row in between is skipped. */
  lemma {:induction false} WalkCrosses(g: Grid, p: seq<nat>, n: nat, byRow: bool, x: nat) returns (k: nat)
    requires Walk(Open(g), n, p)
    requires Line(g, p[0], byRow) <= x <= Line(g, p[|p| - 1], byRow)
        || Line(g, p[|p| - 1], byRow) <= x <= Line(g, p[0], byRow)
    ensures k < |p| && Line(g, p[k], byRow) == x
    decreases |p|
  {
    k := 0;
    if Line(g, p[0], byRow) != x {
      assert |p| > 1;
      assert Adjacent(Open(g), p[0], p[0 + 1]);
      assert Walk(Open(g), n, p[1..]) by {
        forall j | 0 <= j < |p[1..]| - 1 ensures Adjacent(Open(g), p[1..][j], p[1..][j + 1]) {
          assert Adjacent(Open(g), p[j + 1], p[j + 1 + 1]);
        }
      }
      assert OpenBetween(g, p[0], p[1]) || OpenBetween(g, p[1], p[0]);
      k := WalkCrosses(g, p[1..], n, byRow, x);
      k := k + 1;
    }
  }

  lemma {:induction false} WalkPrefix(rel: Relation, n: nat, p: seq<nat>, k: nat)
    requires Walk(rel, n, p) && k < |p|
    ensures Linked(rel, n, p[0], p[k])
  {
    var q := p[..k + 1];
    forall j | 0 <= j < |q| - 1 ensures Adjacent(rel, q[j], q[j + 1]) { assert Adjacent(rel, p[j], p[j + 1]); }
    assert Walk(rel, n, q) && q[0] == p[0] && q[|q| - 1] == p[k];
  }

  /** A group that is one component, as a list of positions. */
  ghost predicate Component(g: Grid, group: seq<nat>) {
    && group != [] && Ascending(group) && (forall v :: v in group ==> v < Size(g))
    && (forall a: nat, b: nat :: a in group && b < Size(g) ==> (b in group <==> Linked(Open(g), Size(g), a, b)))
  }

  /** The rows of a component follow one another, and so do its columns. */
  lemma NoLineSkipped(g: Grid, group: seq<nat>, a: nat, b: nat, byRow: bool, x: nat) returns (v: nat)
    requires Component(g, group) && a in group && b in group && Line(g, a, byRow) <= x <= Line(g, b, byRow)
    ensures v in group && Line(g, v, byRow) == x
  {
    var p :| Walk(Open(g), Size(g), p) && p[0] == a && p[|p| - 1] == b;
    var k := WalkCrosses(g, p, Size(g), byRow, x);
    WalkPrefix(Open(g), Size(g), p, k);
    v := p[k];
  }

  lemma {:induction false} LeastAndGreatest(s: set<nat>) returns (lo: nat, hi: nat)
    requires s != {}
    ensures lo in s && hi in s && forall x :: x in s ==> lo <= x <= hi
    decreases |s|
  {
    var x :| x in s;
    lo, hi := x, x;
    if s - {x} != {} {
      lo, hi := LeastAndGreatest(s - {x});
      lo, hi := if x < lo then x else lo, if x > hi then x else hi;
      assert forall y :: y in s ==> y == x || y in s - {x};
    }
  }

  lemma LinesFollow(g: Grid, group: seq<nat>, byRow: bool) returns (lo: nat, hi: nat)
    requires Component(g, group)
    ensures lo <= hi && hi in Lines(g, group, byRow)
    ensures forall x: nat :: x in Lines(g, group, byRow) <==> lo <= x <= hi
  {
    hide Line, Size;
    var lines := Lines(g, group, byRow);
    assert Line(g, group[0], byRow) in lines;
    lo, hi := LeastAndGreatest(lines);
    var a :| a in group && Line(g, a, byRow) == lo;
    var b :| b in group && Line(g, b, byRow) == hi;
    forall x: nat | lo <= x <= hi ensures x in lines {
      var v := NoLineSkipped(g, group, a, b, byRow, x);
    }
  }

  lemma LineInGrid(g: Grid, group: seq<nat>, x: nat, byRow: bool)
    requires x in Lines(g, group, byRow) && forall v :: v in group ==> v < Size(g)
    ensures x < if byRow then g.rows else g.cols
  {
    var v :| v in group && Line(g, v, byRow) == x;
    CellOf(g, v);
  }

  lemma FullIsRectangle(g: Grid, group: seq<nat>)
    requires Component(g, group) && CellsIn(g, group) == Product(RowsIn(g, group), ColsIn(g, group))
    ensures Rectangle(g, group)
  {
    hide Size, Row, Col;
    var r0, r1 := LinesFollow(g, group, true);
    var c0, c1 := LinesFollow(g, group, false);
    LineInGrid(g, group, r1, true);
    LineInGrid(g, group, c1, false);
    forall v: nat | v < Size(g) ensures v in group <==> r0 <= Row(g, v) <= r1 && c0 <= Col(g, v) <= c1 {
      if v in group {
        assert Line(g, v, true) in RowsIn(g, group) && Line(g, v, false) in ColsIn(g, group);
      }
      if Row(g, v) in RowsIn(g, group) && Col(g, v) in ColsIn(g, group) { InProduct(g, group, v); }
    }
    assert Spans(g, group, r0, r1, c0, c1);
  }

  /** A cell whose row and column both occur in a full group is in it. */
  lemma InProduct(g: Grid, group: seq<nat>, v: nat)
    requires CellsIn(g, group) == Product(RowsIn(g, group), ColsIn(g, group)) && v < Size(g)
    requires forall u :: u in group ==> u < Size(g)
    requires Row(g, v) in RowsIn(g, group) && Col(g, v) in ColsIn(g, group)
    ensures v in group
  {
    assert (Row(g, v), Col(g, v)) in CellsIn(g, group);
    var u :| u in group && (Row(g, u), Col(g, u)) == (Row(g, v), Col(g, v));
    DifferentCells(g, u, v);
  }

  lemma RectangleIsFull(g: Grid, group: seq<nat>)
    requires Rectangle(g, group) && forall v :: v in group ==> v < Size(g)
    ensures CellsIn(g, group) == Product(RowsIn(g, group), ColsIn(g, group))
  {
    var r0, r1, c0, c1 :| Spans(g, group, r0, r1, c0, c1);
    forall r, c | (r, c) in Product(RowsIn(g, group), ColsIn(g, group)) ensures (r, c) in CellsIn(g, group) {
      assert r0 <= r <= r1 && c0 <= c <= c1;
      Cell(g, r, c);
      assert At(g, r, c) in group;
    }
  }

  // ----- reading the grid -----

  ghost predicate Together(g: Grid, v: nat, u: nat) { Linked(Open(g), Size(g), v, u) }

  /** The cells that can be reached from a cell without crossing a line are a contiguous rectangle. */
  ghost predicate RectangleAround(g: Grid, v: nat) {
    exists r0: nat, r1: nat, c0: nat, c1: nat ::
      r0 <= r1 < g.rows && c0 <= c1 < g.cols && ReachesExactly(g, v, r0, r1, c0, c1)
  }

  ghost predicate ReachesExactly(g: Grid, v: nat, r0: nat, r1: nat, c0: nat, c1: nat) {
    forall u: nat :: u < Size(g) ==> (Together(g, v, u) <==> r0 <= Row(g, u) <= r1 && c0 <= Col(g, u) <= c1)
  }

  lemma GroupAround(g: Grid, groups: seq<seq<nat>>, k: nat, v: nat)
    requires GroupsAreComponents(groups, Open(g), Size(g)) && k < |groups| && v in groups[k]
    ensures Component(g, groups[k]) && v < Size(g)
    ensures Rectangle(g, groups[k]) <==> RectangleAround(g, v)
    ensures Times(|RowsIn(g, groups[k])|, |ColsIn(g, groups[k])|) == |groups[k]| <==> RectangleAround(g, v)
  {
    var group := groups[k];
    GroupIsComponent(g, groups, k);
    assert v < Size(g) && forall u: nat :: u < Size(g) ==> (u in group <==> Together(g, v, u));
    if Rectangle(g, group) {
      var r0, r1, c0, c1 :| Spans(g, group, r0, r1, c0, c1);
      assert ReachesExactly(g, v, r0, r1, c0, c1);
      RectangleIsFull(g, group);
    }
    if RectangleAround(g, v) {
      var r0: nat, r1: nat, c0: nat, c1: nat :| r0 <= r1 < g.rows && c0 <= c1 < g.cols
        && ReachesExactly(g, v, r0, r1, c0, c1);
      assert Spans(g, group, r0, r1, c0, c1);
    }
    SizesAgreeExactlyWhenFull(g, group);
    if CellsIn(g, group) == Product(RowsIn(g, group), ColsIn(g, group)) { FullIsRectangle(g, group); }
  }

  lemma GroupIsComponent(g: Grid, groups: seq<seq<nat>>, k: nat)
    requires GroupsAreComponents(groups, Open(g), Size(g)) && k < |groups|
    ensures Component(g, groups[k])
  {
    forall v | v in groups[k] ensures v < Size(g) { assert Has(groups, k, v); }
    forall a: nat, b: nat | a in groups[k] && b < Size(g) ensures b in groups[k] <==> Linked(Open(g), Size(g), a, b) {
      assert Has(groups, k, a) && Placed(groups, b);
      var h: nat :| Has(groups, h, b);
      assert k == h <==> Linked(Open(g), Size(g), a, b);
      if b in groups[k] { assert Has(groups, k, b); }
    }
  }

  /**
   The cells of a grid and whether all merged cells are rectangles: exactly when every connected set of cells is a full and
   contiguous rectangle, although the code compares nothing but sizes.
   */
  method ReadGrid(g: Grid) returns (rectangular: bool, spans: seq<(set<nat>, set<nat>)>, ghost groups: seq<seq<nat>>)
    ensures rectangular <==> forall v: nat :: v < Size(g) ==> RectangleAround(g, v)
    ensures GroupsAreComponents(groups, Open(g), Size(g))
    ensures forall rr, cc :: (rr, cc) in spans <==>
              exists k :: 0 <= k < |groups| && |groups[k]| > 1 && rr == RowsIn(g, groups[k]) && cc == ColsIn(g, groups[k])
  {
    var forest := JoinCells(g);
    var cells := Collect(forest, Open(g));
    groups := cells;
    rectangular, spans := true, [];
    for k := 0 to |cells|
      invariant rectangular <==> forall j :: 0 <= j < k ==>
          Times(|RowsIn(g, cells[j])|, |ColsIn(g, cells[j])|) == |cells[j]|
      invariant forall rr, cc :: (rr, cc) in spans <==>
                  exists j :: 0 <= j < k && |cells[j]| > 1 && rr == RowsIn(g, cells[j]) && cc == ColsIn(g, cells[j])
    {
      var rr, cc := RowsIn(g, cells[k]), ColsIn(g, cells[k]);
      TimesIsProduct(|rr|, |cc|);
      if |rr| * |cc| != |cells[k]| { rectangular := false; }
      if |cells[k]| > 1 { spans := spans + [(rr, cc)]; }
    }
    AllAround(g, cells);
  }

  lemma AllAround(g: Grid, groups: seq<seq<nat>>)
    requires GroupsAreComponents(groups, Open(g), Size(g))
    ensures (forall k :: 0 <= k < |groups| ==> Times(|RowsIn(g, groups[k])|, |ColsIn(g, groups[k])|) == |groups[k]|)
            <==> forall v: nat :: v < Size(g) ==> RectangleAround(g, v)
  {
    forall k: nat | k < |groups|
      ensures Times(|RowsIn(g, groups[k])|, |ColsIn(g, groups[k])|) == |groups[k]| <==> RectangleAround(g, groups[k][0])
      ensures groups[k][0] < Size(g)
    {
      GroupAround(g, groups, k, groups[k][0]);
    }
    forall v: nat | v < Size(g)
      ensures exists k: nat ::
                && Has(groups, k, v)
                && (RectangleAround(g, v) <==> Times(|RowsIn(g, groups[k])|, |ColsIn(g, groups[k])|) == |groups[k]|)
    {
      assert Placed(groups, v);
      var k: nat :| Has(groups, k, v);
      GroupAround(g, groups, k, v);
    }
  }
}
