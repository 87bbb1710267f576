/** The two searches through the dependency graph: breadth first for a yes or no, depth first for a report. */
module PathSearch {
  import opened Basics
  import opened Graphs
  import opened LoaderState

  /** All ids mentioned by the modules have been handed out. */
  ghost predicate Bounded(modules: map<nat, Module>, nextId: nat) {
    && (forall x :: x in modules ==> x < nextId)
    && (forall x, j :: x in modules && modules[x].dependencies.Some? && 0 <= j < |modules[x].dependencies.value| ==>
          modules[x].dependencies.value[j].Id() < nextId)
  }

  lemma EdgeOfEntry(modules: map<nat, Module>, x: nat, j: nat)
    requires x in modules && modules[x].dependencies.Some? && j < |modules[x].dependencies.value|
    ensures Edge(ModuleGraph(modules), x, modules[x].dependencies.value[j].Id())
  {
    assert Ids(modules[x].dependencies.value)[j] == modules[x].dependencies.value[j].Id();
  }

  lemma EntryOfEdge(modules: map<nat, Module>, x: nat, y: nat) returns (j: nat)
    requires Edge(ModuleGraph(modules), x, y)
    ensures x in modules && modules[x].dependencies.Some?
    ensures j < |modules[x].dependencies.value| && modules[x].dependencies.value[j].Id() == y
  {
    j :| 0 <= j < |modules[x].dependencies.value| && Ids(modules[x].dependencies.value)[j] == y;
  }

  /** Ids that are not marked yet; every round of a search takes one id from the queue or marks one more. */
  ghost function Unmarked(marks: seq<bool>): nat {
    if |marks| == 0 then 0 else Unmarked(marks[..|marks| - 1]) + if marks[|marks| - 1] then 0 else 1
  }

  lemma {:induction false} MarkOne(marks: seq<bool>, x: nat)
    requires x < |marks| && !marks[x]
    ensures Unmarked(marks) == Unmarked(marks[x := true]) + 1
  {
    var n := |marks| - 1;
    var after := marks[x := true];
    if x < n {
      MarkOne(marks[..n], x);
      assert after[..n] == marks[..n][x := true];
    } else {
      assert after[..n] == marks[..n];
    }
  }

  ghost predicate Marked(marks: seq<bool>, x: nat) {
    x < |marks| && marks[x]
  }

  ghost predicate AllReached(g: Graph, from: nat, marks: seq<bool>) {
    forall x :: Marked(marks, x) ==> x == from || Reaches(g, from, x)
  }

  /** Nothing marked has been lost: it is still queued or has been looked at. */
  ghost predicate Accounted(marks: seq<bool>, queue: seq<nat>, done: set<nat>) {
    && (forall x :: x in queue ==> Marked(marks, x))
    && (forall x :: Marked(marks, x) ==> x in queue || x in done)
  }

  /** The successors of what has been looked at are marked when defined, and none of them is the goal. */
  ghost predicate LookedAt(g: Graph, done: set<nat>, marks: seq<bool>, to: nat) {
    forall x, y :: x in done && Edge(g, x, y) ==> y != to && (y in g ==> Marked(marks, y))
  }

  method HasDependencyPath(modules: map<nat, Module>, nextId: nat, from: nat, to: nat) returns (found: bool)
    requires Bounded(modules, nextId)
    ensures found <==> Reaches(ModuleGraph(modules), from, to)
  {
    hide Reaches, Unmarked;
    ghost var g := ModuleGraph(modules);
    if from !in modules {
      if Reaches(g, from, to) {
        var b := FirstStep(g, from, to);
      }
      return false;
    }
    var inQueue := seq(nextId, i => false);
    var queue := [from];
    inQueue := inQueue[from := true];
    ghost var done: set<nat> := {};
    while |queue| > 0
      invariant |inQueue| == nextId && Marked(inQueue, from)
      invariant forall x :: x in queue ==> x in modules
      invariant Accounted(inQueue, queue, done)
      invariant AllReached(g, from, inQueue)
      invariant LookedAt(g, done, inQueue, to)
      decreases Unmarked(inQueue) + |queue|
    {
      var element := queue[0];
      queue := queue[1..];
      ghost var size := Unmarked(inQueue) + |queue|;
      ghost var others := done;
      done := done + {element};
      var dependencies := modules[element].dependencies;
      if dependencies.Some? {
        var deps := dependencies.value;
        var i := 0;
        while i < |deps|
          invariant 0 <= i <= |deps| && |inQueue| == nextId && Marked(inQueue, from) && Marked(inQueue, element)
          invariant forall x :: x in queue ==> x in modules
          invariant Accounted(inQueue, queue, done)
          invariant AllReached(g, from, inQueue)
          invariant LookedAt(g, others, inQueue, to)
          invariant forall j :: 0 <= j < i ==>
            deps[j].Id() != to && (deps[j].Id() in modules ==> Marked(inQueue, deps[j].Id()))
          invariant Unmarked(inQueue) + |queue| == size
        {
          var d := deps[i].Id();
          EdgeOfEntry(modules, element, i);
          StepFrom(g, from, element, d);
          if d == to {
            return true;
          }
          if d in modules && !inQueue[d] {
            MarkOne(inQueue, d);
            inQueue := inQueue[d := true];
            queue := queue + [d];
          }
          i := i + 1;
        }
      }
      forall y | Edge(g, element, y) ensures y != to && (y in g ==> Marked(inQueue, y)) {
        var j := EntryOfEdge(modules, element, y);
      }
    }
    ClosedSetBlocks(g, done, from, to);
    return false;
  }

  lemma StepFrom(g: Graph, from: nat, a: nat, b: nat)
    requires a == from || Reaches(g, from, a)
    requires Edge(g, a, b)
    ensures Reaches(g, from, b)
  {
    if a == from {
      EdgeReaches(g, from, b);
    } else {
      Append(g, from, a, b);
    }
  }

  /** Consecutive entries are edges read from right to left. */
  ghost predicate IsBackwardChain(g: Graph, p: seq<nat>) {
    forall i :: 0 <= i < |p| - 1 ==> Edge(g, p[i + 1], p[i])
  }

  /** p runs back to from; it starts at the goal, or was cut off when the depth ran out. */
  ghost predicate IsCyclePath(g: Graph, p: seq<nat>, from: nat, to: nat, depth: nat) {
    && 1 <= |p| && p[|p| - 1] == from
    && IsBackwardChain(g, p)
    && |p| + depth <= MAX_DEPTH + 1
    && (p[0] == to || |p| + depth == MAX_DEPTH + 1)
  }

  method FindCyclePath(modules: map<nat, Module>, from: nat, to: nat, depth: nat) returns (path: Option<seq<nat>>)
    requires depth <= MAX_DEPTH
    ensures path.Some? ==> IsCyclePath(ModuleGraph(modules), path.value, from, to, depth)
    ensures from == to || Reaches(ModuleGraph(modules), from, to) ==> path.Some?
    decreases MAX_DEPTH - depth
  {
    ghost var g := ModuleGraph(modules);
    if from == to || depth == MAX_DEPTH {
      return Some([from]);
    }
    ghost var next := from;
    if Reaches(g, from, to) {
      next := FirstStep(g, from, to);
    }
    if from !in modules {
      return None;
    }
    var dependencies := modules[from].dependencies;
    if dependencies.Some? {
      var deps := dependencies.value;
      var i := 0;
      while i < |deps|
        invariant 0 <= i <= |deps|
        invariant Reaches(g, from, to) ==> forall j :: 0 <= j < i ==> deps[j].Id() != next
      {
        EdgeOfEntry(modules, from, i);
        var found := FindCyclePath(modules, deps[i].Id(), to, depth + 1);
        if found.Some? {
          return Some(found.value + [from]);
        }
        i := i + 1;
      }
    }
    if Reaches(g, from, to) {
      var j := EntryOfEdge(modules, from, next);
    }
    return None;
  }

  method DescribeCycle(modules: map<nat, Module>, d: nat, m: nat) returns (report: seq<nat>)
    requires Reaches(ModuleGraph(modules), d, m)
    ensures IsCycleReport(ModuleGraph(modules), report, d, m)
  {
    var path := FindCyclePath(modules, d, m, 0);
    var cyclePath := path.value;
    report := seq(|cyclePath|, i requires 0 <= i < |cyclePath| => cyclePath[|cyclePath| - 1 - i]);
    forall i | 0 <= i < |report| - 1 ensures Edge(ModuleGraph(modules), report[i], report[i + 1]) {
      var j := |cyclePath| - 2 - i;
      assert Edge(ModuleGraph(modules), cyclePath[j + 1], cyclePath[j]);
    }
    report := report + [d];
  }

  /** A report that was not cut off closes up: every step of it, the last one included, is a dependency. */
  lemma UncutReportIsCycle(g: Graph, report: seq<nat>, d: nat, m: nat)
    requires IsCycleReport(g, report, d, m) && report[|report| - 2] == m && Edge(g, m, d)
    ensures IsChain(g, report) && Reaches(g, d, d)
  {
    var walk := report[..|report| - 1];
    forall i | 0 <= i < |report| - 1 ensures Edge(g, report[i], report[i + 1]) {
      if i < |report| - 2 {
        assert Edge(g, walk[i], walk[i + 1]);
      }
    }
    assert ChainBetween(g, report, d, d);
  }
}
