/**
 The state of the AMD module manager (src/vs/loader.js) as a value, and the facts
 that hold of it whenever control is at a call boundary.

 Beside the manager's own fields a State carries a history: the log of what happened,
 the modules as they were defined, the edges dropped to break cycles, the stack of
 activities in progress (a resolve loop, a factory, a release of waiting modules, a
 release of plugin resources), and the activities that an exception has cut short.
 */
module LoaderState {
  import opened Basics
  import opened Graphs

  // Ids 0, 1 and 2 belong to the names 'exports', 'module' and 'require'.
  datatype Dependency =
    | Exports
    | ModuleInfo
    | Require
    | Regular(regularId: nat)
    | Plugin(resourceId: nat, pluginId: nat)
  {
    function Id(): nat {
      match this
      case Exports => 0
      case ModuleInfo => 1
      case Require => 2
      case Regular(d) => d
      case Plugin(d, _) => d
    }

    predicate Builtin() {
      Exports? || ModuleInfo? || Require?
    }
  }

  /** What a module exports: the object it was created with, or a value it was given. */
  datatype Value = Fresh(owner: nat) | Given(token: nat) | Null

  datatype Callback = NoCallback | Factory | Literal(value: Value)

  /** A module as it was defined. */
  datatype Definition = Definition(deps: seq<Dependency>, callback: Callback, hasErrorback: bool)

  /** How a factory ends; one that the configuration tells not to invoke yields null. */
  datatype FactoryOutcome =
    | Threw(token: nat)
    | Returned(result: Option<Value>, exportsEmpty: bool)
    | NotInvoked(exportsEmpty: bool)

  datatype Phase = Loading | InFactory

  datatype Error = Error(phase: Phase, moduleId: nat, token: nat)

  datatype Module = Module(
    dependencies: Option<seq<Dependency>>,
    callback: Callback,
    hasErrorback: bool,
    unresolved: int,
    isComplete: bool,
    error: Option<Error>,
    exportsPassedIn: bool,
    exports: Value)

  datatype Argument = Val(value: Value) | ModuleArg(owner: nat) | RequireArg(owner: nat) | NullArg

  datatype Entry =
    | Completing(id: nat, args: seq<Argument>, callback: Callback)   // Module.complete is entered; a factory gets args
    | Completed(id: nat, exports: Value, error: Option<Error>)   // Module.complete returns
    | DependencyError(id: nat)                   // Module.onDependencyError is called
    | ScriptRequested(id: nat, plugin: Option<nat>)   // the script loader or a plugin is asked for id
    | ErrorReported(id: nat)                     // the global error handler is called
    | Unwound(id: nat)                           // an exception cuts short what was going on with id
    | Caught(inside: bool)                       // foreign code catches it, called by the manager or from outside

  datatype Stack =
    | Idle
    | Resolving(id: nat, visited: nat, left: nat, below: Stack)
    | Running(id: nat, below: Stack)
    | Releasing(id: nat, pending: seq<nat>, below: Stack)
    | Plugging(resources: seq<Dependency>, below: Stack)

  datatype State = State(
    nextId: nat,
    modules: map<nat, Module>,
    known: set<nat>,
    inverse: Graph,
    inversePlugin: map<nat, seq<Dependency>>,
    hasCycle: bool,
    reports: seq<seq<nat>>,
    stack: Stack,
    dead: Stack,
    log: seq<Entry>,
    defs: map<nat, Definition>,
    declared: map<nat, seq<Dependency>>,
    begun: set<nat>,
    ended: set<nat>,
    notified: set<nat>,
    broken: set<(nat, nat)>)

  // ---------- the two dependency graphs ----------

  ghost function Ids(deps: seq<Dependency>): (ids: seq<nat>)
    ensures |ids| == |deps|
    ensures forall j :: 0 <= j < |deps| ==> ids[j] == deps[j].Id()
  {
    seq(|deps|, j requires 0 <= j < |deps| => deps[j].Id())
  }

  /** The graph the path searches walk: defined modules whose dependency list is not null. */
  ghost function ModuleGraph(modules: map<nat, Module>): Graph {
    map x | x in modules && modules[x].dependencies.Some? :: Ids(modules[x].dependencies.value)
  }

  ghost function DeclaredGraph(declared: map<nat, seq<Dependency>>): Graph {
    map x | x in declared :: Ids(declared[x])
  }

  ghost predicate DependsOn(deps: seq<Dependency>, d: nat) {
    exists j :: 0 <= j < |deps| && !deps[j].Builtin() && deps[j].Id() == d
  }

  const MAX_DEPTH: nat := 50

  /** The ids printed when the dependency d of module x turns out to lead back to x. */
  ghost predicate IsCycleReport(g: Graph, report: seq<nat>, d: nat, x: nat) {
    && 2 <= |report| <= MAX_DEPTH + 2
    && var walk := report[..|report| - 1];
    && report[0] == d && report[|report| - 1] == d
    && IsChain(g, walk)
    && (walk[|walk| - 1] == x || |walk| == MAX_DEPTH + 1)
  }

  // ---------- who waits for whom, and how often ----------

  function Waiting(inverse: Graph, d: nat): seq<nat> {
    if d in inverse then inverse[d] else []
  }

  /** How many times x stands in the lists of ids below n. */
  ghost function Occurrences(inverse: Graph, x: nat, n: nat): nat {
    if n == 0 then 0 else Occurrences(inverse, x, n - 1) + multiset(Waiting(inverse, n - 1))[x]
  }

  /** Decrements of x's counter that the activities in progress still owe. */
  ghost function Owed(stack: Stack, x: nat): nat {
    match stack
    case Idle => 0
    case Resolving(y, _, left, below) => (if x == y then left else 0) + Owed(below, x)
    case Running(_, below) => Owed(below, x)
    case Releasing(_, pending, below) => multiset(pending)[x] + Owed(below, x)
    case Plugging(_, below) => Owed(below, x)
  }

  /** How many resolve loops of x are on the stack. */
  ghost function Resolvings(stack: Stack, x: nat): nat {
    match stack
    case Idle => 0
    case Resolving(y, _, _, below) => (if x == y then 1 else 0) + Resolvings(below, x)
    case Running(_, below) => Resolvings(below, x)
    case Releasing(_, _, below) => Resolvings(below, x)
    case Plugging(_, below) => Resolvings(below, x)
  }

  /** How many completions of x are on the stack whose factory has not come to an end. */
  ghost function Runnings(stack: Stack, x: nat): nat {
    match stack
    case Idle => 0
    case Resolving(_, _, _, below) => Runnings(below, x)
    case Running(y, below) => (if x == y then 1 else 0) + Runnings(below, x)
    case Releasing(_, _, below) => Runnings(below, x)
    case Plugging(_, below) => Runnings(below, x)
  }

  ghost predicate IsReleasing(stack: Stack, x: nat) {
    match stack
    case Idle => false
    case Resolving(_, _, _, below) => IsReleasing(below, x)
    case Running(_, below) => IsReleasing(below, x)
    case Releasing(y, _, below) => x == y || IsReleasing(below, x)
    case Plugging(_, below) => IsReleasing(below, x)
  }

  /** The resource d is about to be handed to its plugin. */
  ghost predicate IsPlugging(stack: Stack, d: nat) {
    match stack
    case Idle => false
    case Resolving(_, _, _, below) => IsPlugging(below, d)
    case Running(_, below) => IsPlugging(below, d)
    case Releasing(_, _, below) => IsPlugging(below, d)
    case Plugging(resources, below) => d in Ids(resources) || IsPlugging(below, d)
  }

  /** How many of x's dependencies its resolve loop has dealt with; all of them once the loop is gone. */
  ghost function Visited(stack: Stack, x: nat, all: nat): nat {
    match stack
    case Idle => all
    case Resolving(y, visited, _, below) => if x == y then visited else Visited(below, x, all)
    case Running(_, below) => Visited(below, x, all)
    case Releasing(_, _, below) => Visited(below, x, all)
    case Plugging(_, below) => Visited(below, x, all)
  }

  ghost predicate StackOk(stack: Stack, declared: map<nat, seq<Dependency>>) {
    match stack
    case Idle => true
    case Resolving(x, visited, left, below) =>
      x in declared && visited + left == |declared[x]| && StackOk(below, declared)
    case Running(_, below) => StackOk(below, declared)
    case Releasing(_, pending, below) =>
      (forall i :: 0 <= i < |pending| ==> pending[i] in declared) && StackOk(below, declared)
    case Plugging(_, below) => StackOk(below, declared)
  }

  /** One stack on top of another. */
  ghost function Over(top: Stack, rest: Stack): Stack {
    match top
    case Idle => rest
    case Resolving(x, visited, left, below) => Resolving(x, visited, left, Over(below, rest))
    case Running(x, below) => Running(x, Over(below, rest))
    case Releasing(x, pending, below) => Releasing(x, pending, Over(below, rest))
    case Plugging(resources, below) => Plugging(resources, Over(below, rest))
  }

  /** Everything that is unfinished, whether it goes on or has been cut short. */
  ghost function Whole(s: State): Stack {
    Over(s.stack, s.dead)
  }

  // ---------- the invariant, clause by clause ----------

  ghost predicate IdsOk(s: State) {
    && s.declared.Keys == s.modules.Keys
    && (forall x :: x in s.declared ==> x < s.nextId)
    && (forall d :: d in s.inverse ==> d < s.nextId)
    && (forall x, j :: x in s.declared && 0 <= j < |s.declared[x]| ==> s.declared[x][j].Id() < s.nextId)
    && StackOk(Whole(s), s.declared)
    && (forall x :: Resolvings(Whole(s), x) <= 1)
  }

  ghost predicate StatusOk(s: State) {
    && s.declared.Keys == s.modules.Keys
    && s.begun <= s.modules.Keys && s.notified <= s.modules.Keys && s.ended <= s.begun
    && (forall x :: x in s.modules ==>
      var m := s.modules[x];
      && (m.isComplete <==> x in s.begun || x in s.notified)
      && (x in s.notified ==> m.error.Some?)
      && (x !in s.notified && x !in s.ended ==> m.error.None?)
      && (m.dependencies == if x in s.ended then None else Some(s.declared[x]))
      && (x !in s.ended ==> m.exports == Fresh(x)))
    && (forall x :: Runnings(Whole(s), x) == if x in s.begun && x !in s.ended then 1 else 0)
  }

  /** Modules are as they were defined; what a module was defined with is what it is completed with. */
  ghost predicate DefsOk(s: State) {
    && s.defs.Keys == s.declared.Keys == s.modules.Keys
    && (forall x :: x in s.defs ==> s.declared[x] == s.defs[x].deps)
    && (forall x :: x in s.defs && x !in s.ended ==>
      s.modules[x].callback == s.defs[x].callback && s.modules[x].hasErrorback == s.defs[x].hasErrorback)
    && (forall x :: x in s.defs && x in s.ended ==>
      && IsExportOf(s.defs[x].callback, x, s.modules[x].exports)
      && s.modules[x].callback.NoCallback? && !s.modules[x].hasErrorback)
    && (forall k :: 0 <= k < |s.log| && s.log[k].Completing? ==>
      s.log[k].id in s.defs && s.log[k].callback == s.defs[s.log[k].id].callback)
  }

  ghost predicate IsExportOf(callback: Callback, x: nat, exports: Value) {
    && (callback.NoCallback? ==> exports == Fresh(x))
    && (callback.Literal? ==> exports == callback.value)
  }

  ghost predicate ListsOk(s: State) {
    && (forall d, x :: x in Waiting(s.inverse, d) ==> x in s.declared && DependsOn(s.declared[x], d))
    && (forall d :: d in s.ended ==> Waiting(s.inverse, d) == [])
  }

  /** Counter conservation. */
  ghost predicate CountedOk(s: State) {
    forall x :: x in s.modules ==>
      var owed := Occurrences(s.inverse, x, s.nextId) + Owed(Whole(s), x);
      && s.modules[x].unresolved >= owed
      && (x !in s.notified ==> s.modules[x].unresolved == owed)
      && (x in s.begun ==> s.modules[x].unresolved == 0)
  }

  /** A module that is neither complete nor being resolved, pivot excepted, still has something to come. */
  ghost predicate ProgressOk(s: State, pivot: set<nat>) {
    forall x :: x in s.modules && !s.modules[x].isComplete && Resolvings(s.stack, x) == 0 && x !in pivot ==>
      s.modules[x].unresolved > 0
  }

  ghost predicate Settled(s: State, x: nat, d: nat) {
    d in s.begun || (x, d) in s.broken || x in Waiting(s.inverse, d)
  }

  /** The resolve loop of x has dealt with its dependency number j. */
  ghost predicate IsVisited(s: State, x: nat, j: int) {
    && x in s.declared && x !in s.notified
    && 0 <= j < |s.declared[x]| && !s.declared[x][j].Builtin()
    && j < Visited(Whole(s), x, |s.declared[x]|)
  }

  ghost predicate SettledOk(s: State) {
    && s.declared.Keys == s.modules.Keys
    && StackOk(Whole(s), s.declared)
    && (forall x, j | IsVisited(s, x, j) :: Settled(s, x, s.declared[x][j].Id()))
    && PassedOk(s)
  }

  ghost predicate PassesExports(deps: seq<Dependency>) {
    exists j :: 0 <= j < |deps| && deps[j].Exports?
  }

  /** Dependency number j of x is on exports; it has been dealt with, and x has neither failed before nor ended. */
  ghost predicate IsPassed(s: State, x: nat, j: int) {
    && x in s.declared && x in s.modules && x !in s.ended && (x !in s.notified || x in s.begun)
    && 0 <= j < |s.declared[x]| && s.declared[x][j].Exports?
    && j < Visited(Whole(s), x, |s.declared[x]|)
  }

  /** Until a module has ended it is known whether it uses its exports object. */
  ghost predicate PassedOk(s: State) {
    && (forall x, j | IsPassed(s, x, j) :: s.modules[x].exportsPassedIn)
    && (forall x | x in s.modules && x in s.declared && x !in s.ended && s.modules[x].exportsPassedIn ::
          PassesExports(s.declared[x]))
  }

  ghost predicate BrokenOk(s: State) {
    && (s.hasCycle <==> s.broken != {})
    && ReportsOk(DeclaredGraph(s.declared), s.reports, s.broken)
    && forall x, d :: (x, d) in s.broken ==>
      && x in s.declared && DependsOn(s.declared[x], d)
      && Reaches(DeclaredGraph(s.declared), d, x)
      && HasReport(DeclaredGraph(s.declared), s.reports, d, x)
  }

  ghost predicate HasReport(g: Graph, reports: seq<seq<nat>>, d: nat, x: nat) {
    exists k :: 0 <= k < |reports| && IsCycleReport(g, reports[k], d, x)
  }

  ghost predicate ReportsOk(g: Graph, reports: seq<seq<nat>>, broken: set<(nat, nat)>) {
    forall k :: 0 <= k < |reports| ==> IsReportOf(g, reports[k], broken)
  }

  ghost predicate IsReportOf(g: Graph, report: seq<nat>, broken: set<(nat, nat)>) {
    exists x, d :: (x, d) in broken && IsCycleReport(g, report, d, x)
  }

  ghost predicate NoWaitCycle(inverse: Graph) {
    exists rank :: Ranked(inverse, rank)
  }

  ghost predicate PluginsOk(s: State) {
    && (forall p :: p in s.inversePlugin && p in s.ended ==> IsReleasing(Whole(s), p))
    && (forall p :: p in s.inversePlugin ==> IsPlugin(s.declared, p))
    && (forall p, i :: p in s.inversePlugin && 0 <= i < |s.inversePlugin[p]| ==>
          IsResource(s.declared, s.inversePlugin[p][i], p))
  }

  /** Some module was defined with this dependency. */
  ghost predicate Names(declared: map<nat, seq<Dependency>>, dep: Dependency) {
    exists x, j :: x in declared && 0 <= j < |declared[x]| && declared[x][j] == dep
  }

  ghost predicate IsResource(declared: map<nat, seq<Dependency>>, dep: Dependency, p: nat) {
    dep.Plugin? && dep.pluginId == p && Names(declared, dep)
  }

  /** Some module was defined with a dependency on a resource of plugin p. */
  ghost predicate IsPlugin(declared: map<nat, seq<Dependency>>, p: nat) {
    exists x, j :: IsPluginEntry(declared, x, j, p)
  }

  ghost predicate IsPluginEntry(declared: map<nat, seq<Dependency>>, x: nat, j: nat, p: nat) {
    x in declared && j < |declared[x]| && declared[x][j].Plugin? && declared[x][j].pluginId == p
  }

  /** Some plugin that is itself defined or on its way holds the resource d back until it is complete. */
  ghost predicate HeldByPlugin(s: State, d: nat) {
    exists p :: p in s.inversePlugin && (p in s.modules || p in s.known) && d in Ids(s.inversePlugin[p])
  }

  ghost predicate Requested(s: State, d: nat) {
    d in s.modules || d in s.known || IsPlugging(Whole(s), d) || HeldByPlugin(s, d)
  }

  /** Everything that is waited for is defined or on its way. */
  ghost predicate RequestedOk(s: State) {
    forall d :: Waiting(s.inverse, d) != [] ==> Requested(s, d)
  }

  // ---------- the log ----------

  ghost predicate BeginsAt(log: seq<Entry>, k: int, x: nat) {
    0 <= k < |log| && log[k].Completing? && log[k].id == x
  }

  ghost predicate EndsAt(log: seq<Entry>, k: int, x: nat) {
    0 <= k < |log| && log[k].Completed? && log[k].id == x
  }

  ghost predicate FailsAt(log: seq<Entry>, k: int, x: nat) {
    0 <= k < |log| && log[k] == DependencyError(x)
  }

  ghost predicate RequestedAt(log: seq<Entry>, k: int, x: nat) {
    0 <= k < |log| && log[k].ScriptRequested? && log[k].id == x
  }

  /** The sets of the state are exactly what the log says. */
  ghost predicate LogLinks(s: State) {
    && (forall x :: x in s.begun <==> exists k :: BeginsAt(s.log, k, x))
    && (forall x :: x in s.ended <==> exists k :: EndsAt(s.log, k, x))
    && (forall x :: x in s.notified <==> exists k :: FailsAt(s.log, k, x))
    && (forall x :: x in s.known <==> exists k :: RequestedAt(s.log, k, x))
  }

  /** No module is completed or requested twice, none after it has failed, and none ends before it begins. */
  ghost predicate OnceOk(log: seq<Entry>) {
    && (forall i, k, x :: BeginsAt(log, i, x) && BeginsAt(log, k, x) ==> i == k)
    && (forall i, k, x :: EndsAt(log, i, x) && EndsAt(log, k, x) ==> i == k)
    && (forall i, k, x :: RequestedAt(log, i, x) && RequestedAt(log, k, x) ==> i == k)
    && (forall i, k, x :: FailsAt(log, i, x) && BeginsAt(log, k, x) ==> k < i)
    && (forall k, x :: EndsAt(log, k, x) ==> exists i :: i < k && BeginsAt(log, i, x))
  }

  /** The argument passed for one dependency when the module x was completed at position k of the log. */
  ghost predicate ArgumentOk(log: seq<Entry>, k: nat, x: nat, dep: Dependency, arg: Argument,
      broken: set<(nat, nat)>)
    requires k <= |log|
  {
    match dep
    case Exports => arg == Val(Fresh(x))
    case ModuleInfo => arg == ModuleArg(x)
    case Require => arg == RequireArg(x)
    case _ =>
      && ((exists i :: i < k && BeginsAt(log, i, dep.Id())) || (x, dep.Id()) in broken)
      && (forall i :: i < k && EndsAt(log, i, dep.Id()) ==> arg == Val(log[i].exports))
      && ((forall i :: i < k ==> !EndsAt(log, i, dep.Id())) ==> arg == Val(Fresh(dep.Id())))
  }

  ghost predicate CallOk(log: seq<Entry>, k: nat, x: nat, args: seq<Argument>,
      declared: map<nat, seq<Dependency>>, broken: set<(nat, nat)>)
    requires k <= |log|
  {
    && x in declared && |args| == |declared[x]|
    && forall j :: 0 <= j < |args| ==> ArgumentOk(log, k, x, declared[x][j], args[j], broken)
  }

  /** Every completion found its dependencies begun, or dropped to break a cycle, and got their exports in place. */
  ghost predicate OrderOk(log: seq<Entry>, declared: map<nat, seq<Dependency>>, broken: set<(nat, nat)>) {
    forall k :: 0 <= k < |log| && log[k].Completing? ==>
      CallOk(log, k, log[k].id, log[k].args, declared, broken)
  }

  ghost predicate ExportsOk(s: State) {
    forall k, x :: EndsAt(s.log, k, x) ==>
      && x in s.modules && s.modules[x].exports == s.log[k].exports
      && (x !in s.notified ==> s.modules[x].error == s.log[k].error)
  }

  /** The script loader is asked for what some module depends on, or for the plugin that this needs. */
  ghost predicate IsAskable(declared: map<nat, seq<Dependency>>, id: nat, plugin: Option<nat>) {
    if plugin.Some? then Names(declared, Plugin(id, plugin.value))
    else Names(declared, Regular(id)) || IsPlugin(declared, id)
  }

  /** A plugin is handed a resource only after it has been completed, or has failed. */
  ghost predicate IsAskedInOrder(log: seq<Entry>, k: int, declared: map<nat, seq<Dependency>>) {
    0 <= k < |log| && log[k].ScriptRequested? ==>
      && IsAskable(declared, log[k].id, log[k].plugin)
      && (log[k].plugin.Some? ==>
            exists i :: i < k && (BeginsAt(log, i, log[k].plugin.value) || FailsAt(log, i, log[k].plugin.value)))
  }

  ghost predicate AskedOk(log: seq<Entry>, declared: map<nat, seq<Dependency>>) {
    forall k :: 0 <= k < |log| ==> IsAskedInOrder(log, k, declared)
  }

  ghost predicate HistoryOk(s: State) {
    && AskedOk(s.log, s.declared)
    && LogLinks(s)
    && OnceOk(s.log)
    && OrderOk(s.log, s.declared, s.broken)
    && ExportsOk(s)
  }

  /** Something has been cut short exactly if the log says so. */
  ghost predicate UnwoundOk(s: State) {
    s.dead == Idle <==> forall k :: 0 <= k < |s.log| ==> !s.log[k].Unwound?
  }

  /** All clauses but the last; pivot holds the module that is about to be completed, if any. */
  ghost predicate Core(s: State, pivot: set<nat>) {
    && IdsOk(s) && StatusOk(s) && ListsOk(s) && CountedOk(s) && ProgressOk(s, pivot)
    && SettledOk(s) && BrokenOk(s) && NoWaitCycle(s.inverse) && PluginsOk(s) && DefsOk(s) && HistoryOk(s)
    && UnwoundOk(s)
  }

  ghost predicate Inv(s: State, pivot: set<nat>) {
    Core(s, pivot) && RequestedOk(s)
  }

  /** What never shrinks or changes while the manager works. */
  ghost predicate Grows(s: State, t: State) {
    && s.nextId <= t.nextId
    && s.log <= t.log
    && s.known <= t.known
    && s.begun <= t.begun && s.ended <= t.ended && s.notified <= t.notified
    && s.broken <= t.broken
    && s.modules.Keys <= t.modules.Keys
    && (forall x :: x in s.declared ==> x in t.declared && t.declared[x] == s.declared[x])
    && (forall x :: x in s.defs ==> x in t.defs && t.defs[x] == s.defs[x])
  }
}
