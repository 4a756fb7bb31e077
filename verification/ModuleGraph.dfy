/** Import cycles and import paths. */
module ModuleGraph {
  import opened Strings

  // Import cycles: the depth-first search of the module boundary check, and the normalization of relative import paths.

  /** Modules are numbered; every import names a module of the graph. */
  type Graph = map<nat, seq<nat>>

  predicate WellFormed(g: Graph) {
    forall u, v :: u in g && v in g[u] ==> v in g
  }

  predicate Edge(g: Graph, u: nat, v: nat) { u in g && v in g[u] }

  /** Consecutive modules import one another. */
  predicate Path(g: Graph, p: seq<nat>) {
    forall k :: 0 <= k < |p| - 1 ==> Edge(g, p[k], p[k + 1])
  }

  predicate Distinct(p: seq<nat>) { forall j, k :: 0 <= j < k < |p| ==> p[j] != p[k] }

  /** A path that comes back to where it starts, and to nowhere else twice. */
  predicate Cycle(g: Graph, c: seq<nat>) {
    |c| >= 2 && Path(g, c) && c[|c| - 1] == c[0] && Distinct(c[..|c| - 1])
  }

  /** Any closed path at all. */
  ghost predicate Cyclic(g: Graph) {
    exists c :: |c| >= 2 && Path(g, c) && c[|c| - 1] == c[0]
  }

  // ----- why nothing is missed -----

  /** Modules in the order in which their visits ended: each imports only modules that ended before it. */
  ghost predicate Ordered(g: Graph, done: seq<nat>) {
    forall k, v :: 0 <= k < |done| && Edge(g, done[k], v) ==> v in done[..k]
  }

  lemma {:induction false} PositionFalls(g: Graph, done: seq<nat>, p: seq<nat>, k: nat) returns (pos: nat, first: nat)
    requires Ordered(g, done) && p != [] && Path(g, p) && p[0] in done && k < |p|
    ensures pos <= first < |done| && done[pos] == p[k] && done[first] == p[0] && (k > 0 ==> pos < first)
  {
    if k == 0 {
      pos :| 0 <= pos < |done| && done[pos] == p[0];
      first := pos;
    } else {
      var before;
      before, first := PositionFalls(g, done, p, k - 1);
      assert Edge(g, p[k - 1], p[k - 1 + 1]);
      assert p[k] in done[..before];
      pos :| 0 <= pos < before && done[..before][pos] == p[k];
    }
  }

  /** With such an order over distinct modules no path comes back to where it starts. */
  lemma OrderedHasNoCycle(g: Graph, done: seq<nat>, c: seq<nat>)
    requires Ordered(g, done) && Distinct(done) && (forall u :: u in g ==> u in done)
    requires |c| >= 2 && Path(g, c)
    ensures c[|c| - 1] != c[0]
  {
    assert Edge(g, c[0], c[0 + 1]);
    var pos, first := PositionFalls(g, done, c, |c| - 1);
  }

  // ----- the search -----

  /**
   The stack is a path of the active modules, every visited module is active or done, every failure is a cycle, and as
   long as there is none the modules done are in order.
   */
  ghost predicate GoodSearch(g: Graph, visited: set<nat>, active: set<nat>, stack: seq<nat>, failures: seq<seq<nat>>,
      done: seq<nat>) {
    && visited <= g.Keys
    && (forall u :: u in active <==> u in stack)
    && Distinct(stack) && Path(g, stack)
    && (forall u :: u in visited <==> u in active || u in done)
    && (forall u :: u in done ==> u !in active)
    && Distinct(done)
    && (failures == [] ==> Ordered(g, done))
    && (forall i :: 0 <= i < |failures| ==> Cycle(g, failures[i]))
  }

  lemma Entered(g: Graph, visited: set<nat>, active: set<nat>, stack: seq<nat>, failures: seq<seq<nat>>,
      done: seq<nat>, path: nat)
    requires GoodSearch(g, visited, active, stack, failures, done) && path in g && path !in visited
    requires stack == [] || Edge(g, stack[|stack| - 1], path)
    ensures GoodSearch(g, visited + {path}, active + {path}, stack + [path], failures, done)
  {
  }

  lemma Left(g: Graph, visited: set<nat>, active: set<nat>, stack: seq<nat>, failures: seq<seq<nat>>, done: seq<nat>,
      path: nat)
    requires GoodSearch(g, visited, active + {path}, stack + [path], failures, done)
    requires path in g && path !in active && path !in stack
    requires failures == [] ==> forall j :: 0 <= j < |g[path]| ==> g[path][j] in done
    ensures GoodSearch(g, visited, active, stack, failures, done + [path])
  {
    assert (stack + [path])[|stack|] == path;
    assert path in active + {path};
    if failures == [] { OneMore(g, done, path); }
    assert forall k :: 0 <= k < |stack| ==> (stack + [path])[k] == stack[k];
    forall k | 0 <= k < |stack| - 1 ensures Edge(g, stack[k], stack[k + 1]) {
      assert Edge(g, (stack + [path])[k], (stack + [path])[k + 1]);
    }
    forall u ensures u in active <==> u in stack {
      assert u in stack + [path] <==> u in stack || u == path;
    }
  }

  class Search {
    const graph: Graph
    var visited: set<nat>
    var active: set<nat>
    var stack: seq<nat>
    var failures: seq<seq<nat>>
    /** The modules whose visit has ended, in that order. */
    ghost var done: seq<nat>

    ghost predicate Valid()
      reads this
    {
      WellFormed(graph) && GoodSearch(graph, visited, active, stack, failures, done)
    }

    constructor (g: Graph)
      requires WellFormed(g)
      ensures Valid() && graph == g && active == {} && stack == [] && failures == [] && done == []
    {
      graph, visited, active, stack, failures, done := g, {}, {}, [], [], [];
    }

    method Visit(path: nat)
      requires Valid() && path in graph && path !in active
      requires stack == [] || Edge(graph, stack[|stack| - 1], path)
      modifies this
      ensures Valid() && path in done
      ensures active == old(active) && stack == old(stack)
      ensures old(visited) <= visited && old(done) <= done && old(failures) <= failures
      decreases graph.Keys - visited, 0
    {
      hide GoodSearch;
      Known(graph, visited, active, stack, failures, done, path);
      if path in visited { return; }
      Entered(graph, visited, active, stack, failures, done, path);
      visited := visited + {path};
      active := active + {path};
      stack := stack + [path];
      for i := 0 to |graph[path]|
        invariant Valid() && active == old(active) + {path} && stack == old(stack) + [path]
        invariant old(visited) + {path} <= visited && old(done) <= done && old(failures) <= failures
        invariant failures == [] ==> forall j :: 0 <= j < i ==> graph[path][j] in done
      {
        VisitImport(path, graph[path][i]);
      }
      Left(graph, visited, old(active), old(stack), failures, done, path);
      stack := stack[..|stack| - 1];
      active := active - {path};
      done := done + [path];
      assert stack == old(stack) && active == old(active);
    }

    /** One turn of the loop over the imports of the module on top of the stack. */
    method VisitImport(path: nat, target: nat)
      requires Valid() && path in visited && stack != [] && stack[|stack| - 1] == path && Edge(graph, path, target)
      modifies this
      ensures Valid() && active == old(active) && stack == old(stack)
      ensures old(visited) <= visited && old(done) <= done && old(failures) <= failures
      ensures failures == [] ==> target in done
      decreases graph.Keys - visited, 1
    {
      if target in active {
        var at := IndexOf(target);
        BackEdge(graph, visited, active, stack, failures, done, at, target);
        failures := failures + [stack[at..] + [target]];
      } else {
        Visit(target);
      }
    }

    /** `stack.indexOf(target)` */
    method IndexOf(target: nat) returns (at: nat)
      requires target in stack
      ensures at < |stack| && stack[at] == target
    {
      at := 0;
      while stack[at] != target
        invariant at < |stack| && target !in stack[..at]
        decreases |stack| - at
      {
        assert stack == stack[..at] + [stack[at]] + stack[at + 1..];
        at := at + 1;
      }
    }
  }

  lemma Known(g: Graph, visited: set<nat>, active: set<nat>, stack: seq<nat>, failures: seq<seq<nat>>, done: seq<nat>,
      path: nat)
    requires GoodSearch(g, visited, active, stack, failures, done) && path !in active
    ensures path in visited <==> path in done
    ensures path !in stack && visited <= g.Keys
  {
  }

  lemma OneMore(g: Graph, done: seq<nat>, path: nat)
    requires Ordered(g, done) && path in g && forall j :: 0 <= j < |g[path]| ==> g[path][j] in done
    ensures Ordered(g, done + [path])
  {
    var done' := done + [path];
    forall k, v | 0 <= k < |done'| && Edge(g, done'[k], v) ensures v in done'[..k] {
      if k < |done| {
        assert done'[k] == done[k] && done'[..k] == done[..k];
      } else {
        assert done'[..k] == done;
      }
    }
  }

  /** An import of an active module closes the path from it to the top of the stack. */
  lemma BackEdge(g: Graph, visited: set<nat>, active: set<nat>, stack: seq<nat>, failures: seq<seq<nat>>,
      done: seq<nat>, at: nat, target: nat)
    requires GoodSearch(g, visited, active, stack, failures, done) && at < |stack| && stack[at] == target
    requires Edge(g, stack[|stack| - 1], target)
    ensures GoodSearch(g, visited, active, stack, failures + [stack[at..] + [target]], done)
  {
    var c := stack[at..] + [target];
    forall k | 0 <= k < |c| - 1 ensures Edge(g, c[k], c[k + 1]) {
      if at + k + 1 < |stack| { assert Edge(g, stack[at + k], stack[at + k + 1]); }
    }
    assert c[..|c| - 1] == stack[at..];
  }

  /** Every failure is a real cycle, and there is a failure if and only if the graph has a closed path. */
  method FindCycles(g: Graph, paths: seq<nat>) returns (failures: seq<seq<nat>>)
    requires WellFormed(g) && forall u :: u in g <==> u in paths
    ensures forall i :: 0 <= i < |failures| ==> Cycle(g, failures[i])
    ensures failures != [] <==> Cyclic(g)
  {
    var search := new Search(g);
    for i := 0 to |paths|
      invariant search.Valid() && fresh(search) && search.graph == g && search.active == {} && search.stack == []
      invariant forall j :: 0 <= j < i ==> paths[j] in search.done
    {
      ghost var done0 := search.done;
      search.Visit(paths[i]);
      assert forall u :: u in done0 ==> u in search.done;
    }
    failures := search.failures;
    if failures == [] {
      forall c | |c| >= 2 && Path(g, c) ensures c[|c| - 1] != c[0] { OrderedHasNoCycle(g, search.done, c); }
    }
    if failures != [] { assert Cycle(g, failures[0]); }
  }

  // ----- normalization -----

  /** The parts of a directory path after walking the given parts from it; `..` at the root stays there. */
  function Walked(from: seq<string>, parts: seq<string>): seq<string>
    decreases |parts|
  {
    if parts == [] then from
    else if parts[0] == "." || parts[0] == "" then Walked(from, parts[1..])
    else if parts[0] == ".." then Walked(if from == [] then [] else from[..|from| - 1], parts[1..])
    else Walked(from + [parts[0]], parts[1..])
  }

  function Normalized(path: string): string { Join(Walked([], Split(path, '/')), '/') }

  method Normalize(path: string) returns (r: string)
    ensures r == Normalized(path)
  {
    var input := Split(path, '/');
    var parts: seq<string> := [];
    for i := 0 to |input|
      invariant Walked(parts, input[i..]) == Walked([], input)
    {
      assert input[i..][1..] == input[i + 1..];
      if input[i] == "." || input[i] == "" { continue; }
      if input[i] == ".." {
        if parts != [] { parts := parts[..|parts| - 1]; }
      } else {
        parts := parts + [input[i]];
      }
    }
    r := Join(parts, '/');
  }

  predicate Name(part: string) { part !in {"", ".", ".."} && Without(part, '/') }

  predicate Names(parts: seq<string>) { forall i :: 0 <= i < |parts| ==> Name(parts[i]) }

  lemma {:induction false} WalkedNames(from: seq<string>, parts: seq<string>)
    requires Names(from) && forall i :: 0 <= i < |parts| ==> Without(parts[i], '/')
    ensures Names(Walked(from, parts))
    decreases |parts|
  {
    if parts != [] {
      if parts[0] == "." || parts[0] == "" {
        WalkedNames(from, parts[1..]);
      } else if parts[0] == ".." {
        WalkedNames(if from == [] then [] else from[..|from| - 1], parts[1..]);
      } else {
        WalkedNames(from + [parts[0]], parts[1..]);
      }
    }
  }

  lemma {:induction false} WalkedOn(from: seq<string>, a: seq<string>, b: seq<string>)
    ensures Walked(from, a + b) == Walked(Walked(from, a), b)
    decreases |a|
  {
    if a == [] {
      assert a + b == b;
    } else {
      assert (a + b)[1..] == a[1..] + b;
      if a[0] == "." || a[0] == "" {
        WalkedOn(from, a[1..], b);
      } else if a[0] == ".." {
        WalkedOn(if from == [] then [] else from[..|from| - 1], a[1..], b);
      } else {
        WalkedOn(from + [a[0]], a[1..], b);
      }
    }
  }

  lemma {:induction false} NamesAreKept(from: seq<string>, parts: seq<string>)
    requires Names(parts)
    ensures Walked(from, parts) == from + parts
    decreases |parts|
  {
    if parts == [] {
      assert from + parts == from;
    } else {
      assert Name(parts[0]);
      NamesAreKept(from + [parts[0]], parts[1..]);
      assert from + [parts[0]] + parts[1..] == from + parts;
    }
  }

  /** Splitting what was normalized gives the names walked to, or one empty part. */
  lemma NormalizedParts(path: string)
    ensures var names := Walked([], Split(path, '/'));
            Names(names) && Walked([], Split(Normalized(path), '/')) == names
  {
    var names := Walked([], Split(path, '/'));
    PartsWithout(path, '/');
    WalkedNames([], Split(path, '/'));
    if names == [] {
      assert Split(Normalized(path), '/') == [""];
    } else {
      SplitJoin(names, '/');
      NamesAreKept([], names);
      assert [] + names == names;
    }
  }

  lemma NormalizeTwice(path: string)
    ensures Normalized(Normalized(path)) == Normalized(path)
  {
    NormalizedParts(path);
  }

  /** An import resolves the same from a directory and from its normalized path. */
  lemma ImportsResolveAlike(directory: string, specifier: string)
    ensures Normalized(directory + "/" + specifier) == Normalized(Normalized(directory) + "/" + specifier)
  {
    NormalizedParts(directory);
    SplitTwo(directory, specifier, '/');
    SplitTwo(Normalized(directory), specifier, '/');
    WalkedOn([], Split(directory, '/'), Split(specifier, '/'));
    WalkedOn([], Split(Normalized(directory), '/'), Split(specifier, '/'));
  }
}
