/** The lock protocol of artifact deployment. */
module ArtifactLocks {
  import opened PromiseQueues

  // The lock protocol of `ArtifactManager`: every deployment task takes its runtime or release key first and
  // then its artifact keys in sorted order, each by joining that key's line (see PromiseQueues).
  //
  // A state is the lines of all keys and the progress of all tasks. One step is one stretch of code between two
  // awaits of one task, so a run is any interleaving. Ids are numbered in the order in which `sort()` puts them;
  // number 0 is the empty string.

  /** The order in which keys are taken. */
  predicate Before(a: Key, b: Key) {
    b.Artifact? && (a.Artifact? ==> a.id < b.id)
  }

  ghost predicate Ordered(plan: seq<Key>) {
    forall i, j :: 0 <= i < j < |plan| ==> Before(plan[i], plan[j])
  }

  // ----- which keys a task takes -----

  predicate Increasing(ids: seq<nat>) {
    forall i, j :: 0 <= i < j < |ids| ==> ids[i] < ids[j]
  }

  function Insert(id: nat, ids: seq<nat>): (r: seq<nat>)
    requires Increasing(ids)
    ensures Increasing(r)
    ensures forall x :: x in r <==> x == id || x in ids
  {
    if ids == [] || id < ids[0] then [id] + ids
    else if id == ids[0] then ids
    else
      var r := Insert(id, ids[1..]);
      assert forall x :: x in ids <==> x == ids[0] || x in ids[1..];
      assert forall x :: x in ids[1..] ==> ids[0] < x;
      assert forall i :: 0 <= i < |r| ==> r[i] in r;
      [ids[0]] + r
  }

  /** `[...new Set(ids)].sort()` */
  function SortedIds(ids: seq<nat>): (r: seq<nat>)
    ensures Increasing(r)
    ensures forall x :: x in r <==> x in ids
  {
    if ids == [] then [] else Insert(ids[0], SortedIds(ids[1..]))
  }

  /** The ids whose artifact lock `withArtifactLocks` takes: the recursion ends at the first falsy id. */
  function LockedIds(ids: seq<nat>): seq<nat> {
    var sorted := SortedIds(ids);
    if sorted != [] && sorted[0] == 0 then [] else sorted
  }

  /** Every listed artifact is locked unless one of the ids is the empty string, and then none is. */
  lemma LockedUnlessEmptyId(ids: seq<nat>)
    ensures 0 !in ids ==> forall x :: x in LockedIds(ids) <==> x in ids
    ensures 0 in ids ==> LockedIds(ids) == []
  {
    var sorted := SortedIds(ids);
    if 0 in ids {
      assert 0 in sorted;
      assert forall i :: 0 < i < |sorted| ==> sorted[0] < sorted[i];
    } else if sorted != [] {
      assert sorted[0] in sorted;
    }
  }

  // Ids are not empty and lists name nothing twice by the schemas of artifacts, releases and runtimes; these functions and
  // lemmas say what the code does with any list.

  datatype Request =
    | Stage(artifact: nat)
    | StageRelease(release: nat, artifacts: seq<nat>)
    | Activate(runtime: nat, artifacts: seq<nat>)
    | Rollback(runtime: nat, artifacts: seq<nat>)
    | EnsureRuntime(runtime: nat, artifacts: seq<nat>)

  function ArtifactKeys(ids: seq<nat>): seq<Key> {
    seq(|ids|, i requires 0 <= i < |ids| => Artifact(ids[i]))
  }

  /** The keys of one task, in the order in which the code takes them. */
  function Plan(q: Request): seq<Key> {
    match q
    case Stage(a) => [Artifact(a)]
    case StageRelease(r, ids) => [Release(r)] + ArtifactKeys(LockedIds(ids))
    case Activate(r, ids) => [Runtime(r)] + ArtifactKeys(LockedIds(ids))
    case Rollback(r, ids) => [Runtime(r)] + ArtifactKeys(LockedIds(ids))
    case EnsureRuntime(r, ids) => [Runtime(r)] + ArtifactKeys(LockedIds(ids))
  }

  function Listed(q: Request): seq<nat> {
    match q
    case Stage(a) => [a]
    case StageRelease(_, ids) => ids
    case Activate(_, ids) => ids
    case Rollback(_, ids) => ids
    case EnsureRuntime(_, ids) => ids
  }

  /** With proper ids a task locks exactly the artifacts it was given. */
  lemma LocksWhatIsListed(q: Request, a: nat)
    requires 0 !in Listed(q)
    ensures Artifact(a) in Plan(q) <==> a in Listed(q)
  {
    if !q.Stage? {
      LockedUnlessEmptyId(Listed(q));
      KeysOf(LockedIds(Listed(q)), a);
      hide LockedIds, ArtifactKeys;
    }
  }

  lemma KeysOf(ids: seq<nat>, a: nat)
    ensures Artifact(a) in ArtifactKeys(ids) <==> a in ids
  {
    if a in ids {
      var i :| 0 <= i < |ids| && ids[i] == a;
      assert ArtifactKeys(ids)[i] == Artifact(a);
    }
  }

  ghost predicate Plans(q: Request, plan: seq<Key>) {
    plan == Plan(q)
  }

  lemma PlansAreOrdered(q: Request)
    ensures Plan(q) != [] && Ordered(Plan(q))
  {
  }

  // ----- the protocol -----

  /** `Unwinding` is a task on its way out, whether its work returned or threw. */
  datatype Phase = Idle | Waiting | Working | Unwinding | Finished

  datatype Task = Task(plan: seq<Key>, held: nat, phase: Phase)

  datatype State = State(lines: map<Key, seq<nat>>, tasks: seq<Task>)

  datatype Step =
    | Submit(t: nat)               // join the line of the first key
    | Grant(t: nat)                // the promise waited for has settled
    | Acquire(t: nat)              // join the line of the next key
    | Settle(t: nat, failed: bool) // the work is over
    | Unlock(t: nat)               // leave the line of the last key taken

  ghost function Line(s: State, k: Key): seq<nat> {
    if k in s.lines then s.lines[k] else []
  }

  ghost predicate Enabled(s: State, e: Step) {
    e.t < |s.tasks| &&
    var task := s.tasks[e.t];
    match e
    case Submit(_) => task.phase == Idle && task.plan != []
    case Grant(t) =>
      task.phase == Waiting && task.held < |task.plan|
      && Line(s, task.plan[task.held]) != [] && Line(s, task.plan[task.held])[0] == t
    case Acquire(_) => task.phase == Working && task.held < |task.plan|
    case Settle(_, failed) => task.phase == Working && (failed || task.held == |task.plan|)
    case Unlock(_) =>
      task.phase == Unwinding && 0 < task.held <= |task.plan| && Line(s, task.plan[task.held - 1]) != []
  }

  ghost function Join(s: State, k: Key, t: nat): map<Key, seq<nat>> {
    s.lines[k := Line(s, k) + [t]]
  }

  ghost function Next(s: State, e: Step): State
    requires Enabled(s, e)
  {
    var task := s.tasks[e.t];
    match e
    case Submit(t) => State(Join(s, task.plan[0], t), s.tasks[t := task.(phase := Waiting)])
    case Grant(t) => s.(tasks := s.tasks[t := task.(phase := Working, held := task.held + 1)])
    case Acquire(t) => State(Join(s, task.plan[task.held], t), s.tasks[t := task.(phase := Waiting)])
    case Settle(t, _) => s.(tasks := s.tasks[t := task.(phase := Unwinding)])
    case Unlock(t) =>
      var k := task.plan[task.held - 1];
      State(s.lines[k := Line(s, k)[1..]],
            s.tasks[t := task.(held := task.held - 1, phase := if task.held == 1 then Finished else Unwinding)])
  }

  /** The key a waiting task has joined the line of. */
  function Wanted(task: Task): Key
    requires task.held < |task.plan|
  {
    task.plan[task.held]
  }

  ghost predicate Holds(s: State, t: nat, k: Key) {
    t < |s.tasks| && s.tasks[t].held <= |s.tasks[t].plan| && k in s.tasks[t].plan[..s.tasks[t].held]
  }

  ghost predicate Waits(s: State, t: nat, k: Key) {
    t < |s.tasks| && s.tasks[t].phase == Waiting && s.tasks[t].held < |s.tasks[t].plan| && Wanted(s.tasks[t]) == k
  }

  ghost predicate GoodTask(task: Task) {
    && task.plan != [] && Ordered(task.plan)
    && task.held <= |task.plan|
    && (task.phase in {Idle, Finished} ==> task.held == 0)
    && (task.phase == Waiting ==> task.held < |task.plan|)
    && (task.phase in {Working, Unwinding} ==> task.held > 0)
  }

  ghost predicate Distinct(l: seq<nat>) {
    forall i, j :: 0 <= i < j < |l| ==> l[i] != l[j]
  }

  /** A line: its members hold or wait for the key, they are distinct, and whoever holds the key is first. */
  ghost predicate GoodLine(s: State, k: Key) {
    var l := Line(s, k);
    && Distinct(l)
    && (forall t :: t in l <==> Holds(s, t, k) || Waits(s, t, k))
    && (forall t :: Holds(s, t, k) ==> l != [] && l[0] == t)
  }

  ghost predicate Inv(s: State) {
    && (forall t :: 0 <= t < |s.tasks| ==> GoodTask(s.tasks[t]))
    && (forall k :: GoodLine(s, k))
  }

  ghost predicate Initial(s: State) {
    && s.lines == map[]
    && (forall t :: 0 <= t < |s.tasks| ==> NotSubmitted(s.tasks[t]))
  }

  ghost predicate NotSubmitted(task: Task) {
    task.phase == Idle && task.held == 0 && exists q :: Plans(q, task.plan)
  }

  lemma InitialInv(s: State)
    requires Initial(s)
    ensures Inv(s)
  {
    forall t | 0 <= t < |s.tasks|
      ensures GoodTask(s.tasks[t])
    {
      assert NotSubmitted(s.tasks[t]);
      var q :| Plans(q, s.tasks[t].plan);
      PlansAreOrdered(q);
    }
  }

  /** A task's keys are all different, so taking or leaving one says nothing about the others. */
  lemma OneKeyMoves(task: Task, n: nat, k: Key)
    requires Ordered(task.plan) && n < |task.plan|
    ensures k in task.plan[..n + 1] <==> k in task.plan[..n] || k == task.plan[n]
    ensures task.plan[n] !in task.plan[..n]
  {
    assert task.plan[..n + 1] == task.plan[..n] + [task.plan[n]];
    assert forall i :: 0 <= i < n ==> Before(task.plan[i], task.plan[n]);
  }

  lemma OthersUnmoved(s: State, e: Step, k: Key)
    requires Inv(s) && Enabled(s, e)
    ensures forall t :: t != e.t ==> (Holds(Next(s, e), t, k) <==> Holds(s, t, k))
    ensures forall t :: t != e.t ==> (Waits(Next(s, e), t, k) <==> Waits(s, t, k))
  {
  }

  lemma GoodLineKept(s: State, e: Step, k: Key)
    requires Inv(s) && Enabled(s, e)
    ensures GoodLine(Next(s, e), k)
  {
    var s', task, t := Next(s, e), s.tasks[e.t], e.t;
    OthersUnmoved(s, e, k);
    assert GoodTask(task) && GoodLine(s, k);
    match e
    case Submit(_) => JoinKept(s, e, k);
    case Acquire(_) => JoinKept(s, e, k);
    case Settle(_, _) =>
    case Grant(_) => OneKeyMoves(task, task.held, k);
    case Unlock(_) =>
      OneKeyMoves(task, task.held - 1, k);
      if k == task.plan[task.held - 1] {
        assert Holds(s, t, k);
        var l := Line(s, k);
        assert forall u :: u in l <==> u == l[0] || u in l[1..];
        assert Line(s', k) == l[1..];
        assert l[0] !in l[1..];
      }
  }

  lemma JoinKept(s: State, e: Step, k: Key)
    requires Inv(s) && Enabled(s, e) && (e.Submit? || e.Acquire?)
    ensures GoodLine(Next(s, e), k)
  {
    var s', task, t := Next(s, e), s.tasks[e.t], e.t;
    OthersUnmoved(s, e, k);
    assert GoodTask(task) && GoodLine(s, k);
    OneKeyMoves(task, task.held, k);
    var l := Line(s, k);
    if k == Wanted(task) {
      assert Line(s', k) == l + [t];
      assert t !in l;
    } else {
      assert Line(s', k) == l;
    }
  }

  lemma StepInv(s: State, e: Step)
    requires Inv(s) && Enabled(s, e)
    ensures Inv(Next(s, e))
  {
    forall k ensures GoodLine(Next(s, e), k) { GoodLineKept(s, e, k); }
  }

  // ----- what every run keeps -----

  /** A run: `states[i + 1]` is what `steps[i]` makes of `states[i]`. */
  ghost predicate Run(states: seq<State>, steps: seq<Step>) {
    && |states| == |steps| + 1
    && Initial(states[0])
    && forall i :: 0 <= i < |steps| ==> Enabled(states[i], steps[i]) && states[i + 1] == Next(states[i], steps[i])
  }

  lemma {:induction false} RunInv(states: seq<State>, steps: seq<Step>, i: nat)
    requires Run(states, steps) && i < |states|
    ensures Inv(states[i])
  {
    if i == 0 {
      InitialInv(states[0]);
    } else {
      RunInv(states, steps, i - 1);
      StepInv(states[i - 1], steps[i - 1]);
    }
  }

  /** In every reachable state a key is held by at most one task, the first in its line; all others in it wait. */
  lemma {:induction false} MutualExclusion(states: seq<State>, steps: seq<Step>, i: nat, k: Key, t: nat, u: nat)
    requires Run(states, steps) && i < |states|
    requires Holds(states[i], t, k)
    ensures Line(states[i], k) != [] && Line(states[i], k)[0] == t
    ensures Holds(states[i], u, k) ==> u == t
    ensures u in Line(states[i], k) && u != t ==> Waits(states[i], u, k)
  {
    RunInv(states, steps, i);
    assert GoodLine(states[i], k);
  }

  /** The task has all its locks. */
  predicate Locked(s: State, t: nat) { t < |s.tasks| && s.tasks[t].phase == Working
      && s.tasks[t].held == |s.tasks[t].plan| }

  /** No two tasks ever work on one artifact at once. */
  lemma OneWorkerPerArtifact(states: seq<State>, steps: seq<Step>, i: nat, t: nat, u: nat, p: Request, q: Request,
      a: nat)
    requires Run(states, steps) && i < |states| && Locked(states[i], t) && Locked(states[i], u)
    requires Plans(p, states[i].tasks[t].plan) && Plans(q, states[i].tasks[u].plan)
    requires 0 !in Listed(p) && 0 !in Listed(q) && a in Listed(p) && a in Listed(q)
    ensures t == u
  {
    LocksWhatIsListed(p, a);
    LocksWhatIsListed(q, a);
    assert Holds(states[i], t, Artifact(a)) && Holds(states[i], u, Artifact(a));
    MutualExclusion(states, steps, i, Artifact(a), t, u);
  }

  ghost predicate Precedes(l: seq<nat>, t: nat, u: nat) {
    exists i, j :: 0 <= i < j < |l| && l[i] == t && l[j] == u
  }

  /** First in, first out: no step lets a task overtake another in a line; the one in front must leave first. */
  lemma FirstInFirstOut(s: State, e: Step, k: Key, t: nat, u: nat)
    requires Inv(s) && Enabled(s, e)
    requires Precedes(Line(s, k), t, u)
    ensures Precedes(Line(Next(s, e), k), t, u) || (e == Unlock(t) && t !in Line(Next(s, e), k))
    ensures e == Grant(u) ==> Wanted(s.tasks[u]) != k
  {
    var l, l' := Line(s, k), Line(Next(s, e), k);
    StepInv(s, e);
    assert GoodLine(s, k) && GoodLine(Next(s, e), k);
    var i, j :| 0 <= i < j < |l| && l[i] == t && l[j] == u;
    if l' == l || l' == l + [e.t] {
      assert l'[i] == t && l'[j] == u;
    } else {
      assert e.Unlock? && l' == l[1..];
      var task := s.tasks[e.t];
      assert task.plan[task.held - 1] in task.plan[..task.held];
      assert Holds(s, e.t, k);
      if i > 0 { assert l'[i - 1] == t && l'[j - 1] == u; }
    }
  }

  // ----- no deadlock -----

  ghost function WaitingAbove(s: State, k: Key): set<nat> {
    set t | 0 <= t < |s.tasks| && s.tasks[t].phase == Waiting && s.tasks[t].held < |s.tasks[t].plan|
            && Before(k, Wanted(s.tasks[t]))
  }

  predicate Fails(e: Step) { e.Settle? && e.failed }

  /** Following "waits for a key held by" leads to a task that can move, because every hop goes up the key order. */
  lemma {:induction false} SomeoneAheadCanStep(s: State, t: nat) returns (e: Step)
    requires Inv(s) && t < |s.tasks| && s.tasks[t].phase !in {Idle, Finished}
    ensures Enabled(s, e) && !e.Submit? && !Fails(e)
    decreases s.tasks[t].phase == Waiting,
              if s.tasks[t].phase == Waiting && s.tasks[t].held < |s.tasks[t].plan|
              then WaitingAbove(s, Wanted(s.tasks[t])) else {}
  {
    var task := s.tasks[t];
    assert GoodTask(task);
    match task.phase
    case Working =>
      return if task.held < |task.plan| then Acquire(t) else Settle(t, false);
    case Unwinding =>
      var k := task.plan[task.held - 1];
      assert k in task.plan[..task.held];
      assert Holds(s, t, k) && GoodLine(s, k);
      return Unlock(t);
    case Waiting =>
      var k := Wanted(task);
      assert Waits(s, t, k) && GoodLine(s, k);
      var first := Line(s, k)[0];
      assert first in Line(s, k);
      var other := s.tasks[first];
      if Waits(s, first, k) {
        return Grant(first);
      }
      assert GoodTask(other);
      if other.phase == Waiting {
        var i :| 0 <= i < other.held && other.plan[i] == k;
        assert Before(other.plan[i], Wanted(other));
        assert WaitingAbove(s, Wanted(other)) < WaitingAbove(s, k) by {
          assert first in WaitingAbove(s, k) && first !in WaitingAbove(s, Wanted(other));
        }
      }
      e := SomeoneAheadCanStep(s, first);
  }

  /**
   In every reachable state in which a submitted task is not finished, some submitted task can step without failing.
   */
  lemma DeadlockFreedom(states: seq<State>, steps: seq<Step>, i: nat, t: nat)
    requires Run(states, steps) && i < |states|
    requires t < |states[i].tasks| && states[i].tasks[t].phase !in {Idle, Finished}
    ensures exists e :: Enabled(states[i], e) && !e.Submit? && !Fails(e)
  {
    RunInv(states, steps, i);
    var e := SomeoneAheadCanStep(states[i], t);
  }

  // ----- every run ends, and it ends with every task finished -----

  /** An upper bound on the number of steps a task still takes. */
  function Left(task: Task): nat {
    var n := |task.plan|;
    if task.held > n then 0 else
    match task.phase
    case Idle => 4 * n + 1
    case Waiting => n + 3 * (n - task.held)
    case Working => n + 3 * (n - task.held) + 1
    case Unwinding => task.held
    case Finished => 0
  }

  function TotalLeft(tasks: seq<Task>): nat {
    if tasks == [] then 0 else Left(tasks[0]) + TotalLeft(tasks[1..])
  }

  lemma {:induction false} TotalLeftUpdate(tasks: seq<Task>, t: nat, task: Task)
    requires t < |tasks|
    ensures TotalLeft(tasks[t := task]) == TotalLeft(tasks) - Left(tasks[t]) + Left(task)
  {
    if t == 0 {
      assert tasks[t := task][1..] == tasks[1..];
    } else {
      TotalLeftUpdate(tasks[1..], t - 1, task);
      assert tasks[t := task][1..] == tasks[1..][t - 1 := task];
    }
  }

  lemma StepUsesUp(s: State, e: Step)
    requires Inv(s) && Enabled(s, e)
    ensures TotalLeft(Next(s, e).tasks) < TotalLeft(s.tasks)
  {
    assert GoodTask(s.tasks[e.t]);
    TotalLeftUpdate(s.tasks, e.t, Next(s, e).tasks[e.t]);
  }

  lemma {:induction false} RunUsesUp(states: seq<State>, steps: seq<Step>, i: nat)
    requires Run(states, steps) && i < |states|
    ensures TotalLeft(states[i].tasks) + i <= TotalLeft(states[0].tasks)
  {
    if i > 0 {
      RunUsesUp(states, steps, i - 1);
      RunInv(states, steps, i - 1);
      StepUsesUp(states[i - 1], steps[i - 1]);
    }
  }

  /**
   No starvation: no run, whatever fails in it, is longer than the tasks' plans allow, and a run that cannot
   go on has finished every task and emptied every line.
   */
  lemma EveryRunCompletes(states: seq<State>, steps: seq<Step>)
    requires Run(states, steps)
    ensures |steps| <= TotalLeft(states[0].tasks)
    ensures var last := states[|steps|];
            (forall e :: !Enabled(last, e)) ==>
              && (forall t :: 0 <= t < |last.tasks| ==> last.tasks[t].phase == Finished)
              && (forall k :: Line(last, k) == [])
  {
    RunUsesUp(states, steps, |steps|);
    RunInv(states, steps, |steps|);
    var last := states[|steps|];
    if forall e :: !Enabled(last, e) {
      forall t | 0 <= t < |last.tasks|
        ensures last.tasks[t].phase == Finished && last.tasks[t].held == 0
      {
        assert GoodTask(last.tasks[t]);
        if last.tasks[t].phase == Idle {
          assert Enabled(last, Submit(t));
        } else if last.tasks[t].phase != Finished {
          var e := SomeoneAheadCanStep(last, t);
        }
      }
      forall k ensures Line(last, k) == [] {
        assert GoodLine(last, k);
        assert Line(last, k) == [] || Line(last, k)[0] in Line(last, k);
        assert forall t :: !Holds(last, t, k) && !Waits(last, t, k);
      }
    }
  }
}
