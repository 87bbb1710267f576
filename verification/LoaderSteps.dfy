/** Each elementary step of the module manager keeps the invariant of LoaderState. */
module LoaderSteps {
  import opened Basics
  import opened Graphs
  import opened LoaderState

  // ---------- counting ----------

  lemma {:induction false} OccurrencesOfMember(inverse: Graph, x: nat, d: nat, n: nat)
    requires d < n && x in Waiting(inverse, d)
    ensures Occurrences(inverse, x, n) > 0
  {
    if d < n - 1 { OccurrencesOfMember(inverse, x, d, n - 1); }
  }

  lemma {:induction false} OccurrencesOfStranger(inverse: Graph, x: nat, n: nat)
    requires forall d :: x !in Waiting(inverse, d)
    ensures Occurrences(inverse, x, n) == 0
  {
    if n > 0 { OccurrencesOfStranger(inverse, x, n - 1); }
  }

  lemma {:induction false} OccurrencesChange(inverse: Graph, changed: Graph, x: nat, d: nat, n: nat)
    requires forall e :: e != d ==> Waiting(changed, e) == Waiting(inverse, e)
    ensures Occurrences(changed, x, n) - Occurrences(inverse, x, n)
         == if d < n then multiset(Waiting(changed, d))[x] as int - multiset(Waiting(inverse, d))[x] else 0
  {
    if n > 0 { OccurrencesChange(inverse, changed, x, d, n - 1); }
  }

  lemma {:induction false} OccurrencesBeyond(inverse: Graph, x: nat, n: nat, m: nat)
    requires n <= m
    requires forall d :: d in inverse ==> d < n
    ensures Occurrences(inverse, x, m) == Occurrences(inverse, x, n)
  {
    if n < m { OccurrencesBeyond(inverse, x, n, m - 1); }
  }

  lemma {:induction false} NothingOwedToStranger(stack: Stack, declared: map<nat, seq<Dependency>>, x: nat)
    requires StackOk(stack, declared) && x !in declared
    ensures Owed(stack, x) == 0 && Resolvings(stack, x) == 0
  {
    match stack
    case Idle =>
    case Resolving(_, _, _, below) => NothingOwedToStranger(below, declared, x);
    case Running(_, below) => NothingOwedToStranger(below, declared, x);
    case Releasing(_, pending, below) => NothingOwedToStranger(below, declared, x);
    case Plugging(_, below) => NothingOwedToStranger(below, declared, x);
  }

  lemma {:induction false} StackOkGrows(stack: Stack, declared: map<nat, seq<Dependency>>,
      more: map<nat, seq<Dependency>>)
    requires StackOk(stack, declared)
    requires forall x :: x in declared ==> x in more && more[x] == declared[x]
    ensures StackOk(stack, more)
  {
    match stack
    case Idle =>
    case Resolving(_, _, _, below) => StackOkGrows(below, declared, more);
    case Running(_, below) => StackOkGrows(below, declared, more);
    case Releasing(_, _, below) => StackOkGrows(below, declared, more);
    case Plugging(_, below) => StackOkGrows(below, declared, more);
  }

  lemma {:induction false} VisitedWhenResolved(stack: Stack, x: nat, all: nat)
    requires Resolvings(stack, x) == 0
    ensures Visited(stack, x, all) == all
  {
    match stack
    case Idle =>
    case Resolving(_, _, _, below) => VisitedWhenResolved(below, x, all);
    case Running(_, below) => VisitedWhenResolved(below, x, all);
    case Releasing(_, _, below) => VisitedWhenResolved(below, x, all);
    case Plugging(_, below) => VisitedWhenResolved(below, x, all);
  }

  /** A module to which nothing is owed has had all its dependencies visited. */
  lemma {:induction false} VisitedWhenPaid(stack: Stack, declared: map<nat, seq<Dependency>>, x: nat)
    requires StackOk(stack, declared) && x in declared && Owed(stack, x) == 0
    ensures Visited(stack, x, |declared[x]|) == |declared[x]|
  {
    match stack
    case Idle =>
    case Resolving(_, _, _, below) => VisitedWhenPaid(below, declared, x);
    case Running(_, below) => VisitedWhenPaid(below, declared, x);
    case Releasing(_, _, below) => VisitedWhenPaid(below, declared, x);
    case Plugging(_, below) => VisitedWhenPaid(below, declared, x);
  }

  /** What is on two stacks is on one stack over the other. */
  lemma {:induction false} OverSplits(top: Stack, rest: Stack, x: nat, all: nat, declared: map<nat, seq<Dependency>>)
    ensures Owed(Over(top, rest), x) == Owed(top, x) + Owed(rest, x)
    ensures Runnings(Over(top, rest), x) == Runnings(top, x) + Runnings(rest, x)
    ensures Resolvings(Over(top, rest), x) == Resolvings(top, x) + Resolvings(rest, x)
    ensures IsReleasing(Over(top, rest), x) <==> IsReleasing(top, x) || IsReleasing(rest, x)
    ensures IsPlugging(Over(top, rest), x) <==> IsPlugging(top, x) || IsPlugging(rest, x)
    ensures Visited(Over(top, rest), x, all) == Visited(top, x, Visited(rest, x, all))
    ensures StackOk(Over(top, rest), declared) <==> StackOk(top, declared) && StackOk(rest, declared)
  {
    match top
    case Idle =>
    case Resolving(_, _, _, below) => OverSplits(below, rest, x, all, declared);
    case Running(_, below) => OverSplits(below, rest, x, all, declared);
    case Releasing(_, _, below) => OverSplits(below, rest, x, all, declared);
    case Plugging(_, below) => OverSplits(below, rest, x, all, declared);
  }

  /** Going on to the next dependency takes one off what is owed, and changes nothing else about the stack. */
  lemma NextOnStack(s: State, t: State)
    requires s.stack.Resolving? && s.stack.left > 0 && t.stack == NextDependency(s.stack) && t.dead == s.dead
    ensures forall x :: Resolvings(Whole(t), x) == Resolvings(Whole(s), x)
    ensures forall x :: Runnings(Whole(t), x) == Runnings(Whole(s), x)
    ensures forall x :: IsReleasing(Whole(t), x) == IsReleasing(Whole(s), x)
    ensures forall x :: IsPlugging(Whole(t), x) == IsPlugging(Whole(s), x)
    ensures forall x :: Owed(Whole(t), x) == Owed(Whole(s), x) - if x == s.stack.id then 1 else 0
    ensures StackOk(Whole(s), s.declared) ==> StackOk(Whole(t), s.declared)
  {
  }

  /** Two lists that differ in one more x at the end. */
  lemma CountAppend(s: seq<nat>, x: nat, y: nat)
    ensures multiset(s + [y])[x] == multiset(s)[x] + if x == y then 1 else 0
  {
  }

  lemma CountHead(s: seq<nat>, x: nat)
    requires s != []
    ensures multiset(s)[x] == multiset(s[1..])[x] + if x == s[0] then 1 else 0
  {
    assert s == [s[0]] + s[1..];
  }

  // ---------- clauses that a step does not touch ----------

  lemma HistoryFrame(s: State, t: State)
    requires HistoryOk(s)
    requires t.log == s.log && t.known == s.known
    requires t.begun == s.begun && t.ended == s.ended && t.notified == s.notified
    requires s.broken <= t.broken
    requires forall x :: x in s.declared ==> x in t.declared && t.declared[x] == s.declared[x]
    requires forall x :: x in s.modules ==>
      && x in t.modules && t.modules[x].exports == s.modules[x].exports
      && (x !in s.notified ==> t.modules[x].error == s.modules[x].error)
    ensures HistoryOk(t)
  {
    assert LogLinks(t);
    AskedLater(s.log, s.declared, t.declared);
    hide AskedOk;
    forall k | 0 <= k < |t.log| && t.log[k].Completing?
      ensures CallOk(t.log, k, t.log[k].id, t.log[k].args, t.declared, t.broken)
    {
      assert CallOk(s.log, k, s.log[k].id, s.log[k].args, s.declared, s.broken);
    }
  }

  lemma NamesGrow(declared: map<nat, seq<Dependency>>, more: map<nat, seq<Dependency>>, dep: Dependency)
    requires Names(declared, dep) && forall x :: x in declared ==> x in more && more[x] == declared[x]
    ensures Names(more, dep)
  {
    var x, j :| x in declared && 0 <= j < |declared[x]| && declared[x][j] == dep;
    assert more[x][j] == dep;
  }

  lemma AskableGrows(declared: map<nat, seq<Dependency>>, more: map<nat, seq<Dependency>>, id: nat,
      plugin: Option<nat>)
    requires IsAskable(declared, id, plugin) && forall x :: x in declared ==> x in more && more[x] == declared[x]
    ensures IsAskable(more, id, plugin)
  {
    hide Names, IsPlugin;
    if plugin.Some? {
      NamesGrow(declared, more, Plugin(id, plugin.value));
    } else if Names(declared, Regular(id)) {
      NamesGrow(declared, more, Regular(id));
    } else {
      PluginsGrow(declared, more, id);
    }
  }

  lemma AskedLater(log: seq<Entry>, declared: map<nat, seq<Dependency>>, more: map<nat, seq<Dependency>>)
    requires AskedOk(log, declared) && forall x :: x in declared ==> x in more && more[x] == declared[x]
    ensures AskedOk(log, more)
  {
    hide IsAskable;
    forall k | 0 <= k < |log| ensures IsAskedInOrder(log, k, more) {
      assert IsAskedInOrder(log, k, declared);
      if log[k].ScriptRequested? {
        AskableGrows(declared, more, log[k].id, log[k].plugin);
      }
    }
  }

  lemma DefsFrame(s: State, t: State)
    requires DefsOk(s) && t.defs == s.defs && t.declared == s.declared && t.ended == s.ended
    requires t.modules.Keys == s.modules.Keys
    requires forall x :: x in s.modules ==>
      && t.modules[x].callback == s.modules[x].callback && t.modules[x].hasErrorback == s.modules[x].hasErrorback
      && t.modules[x].exports == s.modules[x].exports
    requires forall k :: 0 <= k < |t.log| && t.log[k].Completing? ==>
      || (k < |s.log| && t.log[k] == s.log[k])
      || (t.log[k].id in s.defs && t.log[k].callback == s.defs[t.log[k].id].callback)
    ensures DefsOk(t)
  {
  }

  lemma UnwoundFrame(s: State, t: State)
    requires UnwoundOk(s) && t.dead == s.dead
    requires s.log <= t.log && forall k :: |s.log| <= k < |t.log| ==> !t.log[k].Unwound?
    ensures UnwoundOk(t)
  {
  }

  ghost predicate SameDefinitions(before: map<nat, Module>, after: map<nat, Module>) {
    && after.Keys == before.Keys
    && forall x :: x in before ==>
      && after[x].callback == before[x].callback && after[x].hasErrorback == before[x].hasErrorback
      && after[x].exports == before[x].exports && after[x].error == before[x].error
  }

  /** Steps that neither log anything nor define, begin, end or fail a module nor drop a dependency. */
  ghost predicate IsQuietStep(s: State, t: State) {
    && t == s.(nextId := t.nextId, modules := t.modules, inverse := t.inverse, inversePlugin := t.inversePlugin,
               stack := t.stack)
    && SameDefinitions(s.modules, t.modules)
    && s.nextId <= t.nextId
  }

  lemma QuietFrame(s: State, t: State)
    requires IsQuietStep(s, t) && BrokenOk(s) && HistoryOk(s) && DefsOk(s) && UnwoundOk(s)
    ensures BrokenOk(t) && HistoryOk(t) && DefsOk(t) && UnwoundOk(t) && Grows(s, t)
  {
    hide BrokenOk, HistoryOk, DefsOk, UnwoundOk;
    BrokenFrame(s, t);
    HistoryFrame(s, t);
    DefsFrame(s, t);
    UnwoundFrame(s, t);
  }

  /** What has been settled stays settled, and each newly visited dependency is settled, too. */
  lemma SettledFrame(s: State, t: State)
    requires SettledOk(s) && t.declared.Keys == t.modules.Keys && StackOk(Whole(t), t.declared)
    requires forall x, d :: Settled(s, x, d) ==> Settled(t, x, d)
    requires forall x, j :: IsVisited(t, x, j) ==>
      || (IsVisited(s, x, j) && s.declared[x] == t.declared[x])
      || Settled(t, x, t.declared[x][j].Id())
    requires forall x, j :: IsPassed(t, x, j) ==>
      || t.modules[x].exportsPassedIn
      || (IsPassed(s, x, j) && t.modules[x].exportsPassedIn == s.modules[x].exportsPassedIn)
    requires forall x :: x in t.modules && x in t.declared && x !in t.ended && t.modules[x].exportsPassedIn ==>
      || PassesExports(t.declared[x])
      || (&& x in s.modules && x in s.declared && x !in s.ended && s.modules[x].exportsPassedIn
          && t.declared[x] == s.declared[x])
    ensures SettledOk(t)
  {
    forall x, j | IsVisited(t, x, j) ensures Settled(t, x, t.declared[x][j].Id()) {
      if IsVisited(s, x, j) && s.declared[x] == t.declared[x] {
        assert Settled(s, x, s.declared[x][j].Id());
      }
    }
  }

  lemma PluginsGrow(declared: map<nat, seq<Dependency>>, more: map<nat, seq<Dependency>>, p: nat)
    requires IsPlugin(declared, p) && forall x :: x in declared ==> x in more && more[x] == declared[x]
    ensures IsPlugin(more, p)
  {
    var x, j :| IsPluginEntry(declared, x, j, p);
    assert IsPluginEntry(more, x, j, p);
  }

  lemma ReportGrows(g: Graph, h: Graph, report: seq<nat>, d: nat, x: nat)
    requires SubGraph(g, h) && IsCycleReport(g, report, d, x)
    ensures IsCycleReport(h, report, d, x)
  {
  }

  lemma BrokenFrame(s: State, t: State)
    requires BrokenOk(s)
    requires t.broken == s.broken && t.hasCycle == s.hasCycle && t.reports == s.reports
    requires forall x :: x in s.declared ==> x in t.declared && t.declared[x] == s.declared[x]
    ensures BrokenOk(t)
  {
    var g, h := DeclaredGraph(s.declared), DeclaredGraph(t.declared);
    assert SubGraph(g, h);
    BrokenGrows(g, h, s);
  }

  lemma BrokenGrows(g: Graph, h: Graph, s: State)
    requires SubGraph(g, h) && g == DeclaredGraph(s.declared) && BrokenOk(s)
    ensures ReportsOk(h, s.reports, s.broken)
    ensures forall x, d :: (x, d) in s.broken ==> Reaches(h, d, x) && HasReport(h, s.reports, d, x)
  {
    forall x, d | (x, d) in s.broken ensures Reaches(h, d, x) && HasReport(h, s.reports, d, x) {
      ReachesInSuperGraph(g, h, d, x);
      var k :| 0 <= k < |s.reports| && IsCycleReport(g, s.reports[k], d, x);
      ReportGrows(g, h, s.reports[k], d, x);
    }
    forall k | 0 <= k < |s.reports| ensures IsReportOf(h, s.reports[k], s.broken) {
      assert IsReportOf(g, s.reports[k], s.broken);
      var x, d :| (x, d) in s.broken && IsCycleReport(g, s.reports[k], d, x);
      ReportGrows(g, h, s.reports[k], d, x);
    }
  }

  lemma RequestedFrame(s: State, t: State)
    requires RequestedOk(s)
    requires t.inverse == s.inverse && t.inversePlugin == s.inversePlugin
    requires s.known <= t.known && s.modules.Keys <= t.modules.Keys
    requires forall d :: IsPlugging(Whole(s), d) ==> IsPlugging(Whole(t), d)
    ensures RequestedOk(t)
  {
    forall d | Waiting(t.inverse, d) != [] ensures Requested(t, d) {
      assert Requested(s, d);
      if HeldByPlugin(s, d) { assert HeldByPlugin(t, d); }
    }
  }

  // ---------- getModuleId ----------

  lemma InternKeeps(s: State, t: State, pivot: set<nat>)
    requires Inv(s, pivot)
    requires s.nextId <= t.nextId && t == s.(nextId := t.nextId)
    ensures Inv(t, pivot) && Grows(s, t)
  {
    hide IdsOk, StatusOk, ListsOk, CountedOk, ProgressOk, SettledOk, BrokenOk, NoWaitCycle, PluginsOk;
    hide HistoryOk, RequestedOk, DefsOk, UnwoundOk;
    InternCounts(s, t, pivot);
    InternLists(s, t);
    QuietFrame(s, t);
    RequestedFrame(s, t);
  }

  lemma InternCounts(s: State, t: State, pivot: set<nat>)
    requires IdsOk(s) && CountedOk(s) && ProgressOk(s, pivot)
    requires s.nextId <= t.nextId && t == s.(nextId := t.nextId)
    ensures IdsOk(t) && CountedOk(t) && ProgressOk(t, pivot)
  {
    forall x ensures Occurrences(t.inverse, x, t.nextId) == Occurrences(s.inverse, x, s.nextId) {
      OccurrencesBeyond(s.inverse, x, s.nextId, t.nextId);
    }
  }

  lemma InternLists(s: State, t: State)
    requires ListsOk(s) && StatusOk(s) && PluginsOk(s) && SettledOk(s)
    requires t == s.(nextId := t.nextId)
    ensures ListsOk(t) && StatusOk(t) && PluginsOk(t) && SettledOk(t)
  {
    SettledFrame(s, t);
  }

  // ---------- a module is stored and its resolve loop starts ----------

  ghost predicate IsNewModule(id: nat, def: Definition, m: Module) {
    m == Module(Some(def.deps), def.callback, def.hasErrorback, |def.deps|, false, None, false, Fresh(id))
  }

  ghost predicate IsDeclare(s: State, t: State, id: nat, def: Definition, m: Module) {
    && id !in s.modules && id < s.nextId
    && (forall j :: 0 <= j < |def.deps| ==> def.deps[j].Id() < s.nextId)
    && IsNewModule(id, def, m)
    && t == s.(modules := s.modules[id := m], declared := s.declared[id := def.deps], defs := s.defs[id := def],
               stack := Resolving(id, 0, |def.deps|, s.stack))
  }

  lemma DeclareKeeps(s: State, t: State, id: nat, def: Definition, m: Module)
    requires Inv(s, {}) && IsDeclare(s, t, id, def, m)
    ensures Inv(t, {}) && Grows(s, t)
  {
    hide IdsOk, StatusOk, ListsOk, CountedOk, ProgressOk, SettledOk, BrokenOk, NoWaitCycle, PluginsOk;
    hide HistoryOk, RequestedOk, DefsOk, UnwoundOk;
    hide Grows;
    DeclareStatus(s, t, id, def, m);
    DeclarePlugins(s, t, id, def, m);
    DeclareLists(s, t, id, def, m);
    DeclareCounts(s, t, id, def, m);
    DeclareSettles(s, t, id, def, m);
    DeclareDefs(s, t, id, def, m);
    DeclareGrows(s, t, id, def, m);
    DeclareRest(s, t, id, def, m);
    hide IsDeclare;
  }

  lemma DeclareRest(s: State, t: State, id: nat, def: Definition, m: Module)
    requires BrokenOk(s) && HistoryOk(s) && UnwoundOk(s) && RequestedOk(s)
    requires id !in s.declared && IsDeclare(s, t, id, def, m)
    ensures BrokenOk(t) && HistoryOk(t) && UnwoundOk(t) && RequestedOk(t)
  {
    hide BrokenOk, HistoryOk, UnwoundOk, RequestedOk;
    BrokenFrame(s, t);
    HistoryFrame(s, t);
    UnwoundFrame(s, t);
    RequestedFrame(s, t);
  }

  lemma DeclareDefs(s: State, t: State, id: nat, def: Definition, m: Module)
    requires DefsOk(s) && StatusOk(s) && IsDeclare(s, t, id, def, m)
    ensures DefsOk(t) && id !in s.defs
  {
    hide DefsOk;
    StrangerNotEnded(s, id);
    DefsDeclare(s, t, id, def);
  }

  lemma StrangerNotEnded(s: State, id: nat)
    requires StatusOk(s) && id !in s.modules
    ensures id !in s.ended
  {
  }

  lemma DeclareGrows(s: State, t: State, id: nat, def: Definition, m: Module)
    requires id !in s.declared && id !in s.defs && IsDeclare(s, t, id, def, m)
    ensures Grows(s, t)
  {
  }

  lemma DefsDeclare(s: State, t: State, id: nat, def: Definition)
    requires DefsOk(s) && id !in s.modules && id !in s.ended && t.defs == s.defs[id := def] && t.ended == s.ended
    requires t.declared == s.declared[id := def.deps] && t.log == s.log
    requires t.modules.Keys == s.modules.Keys + {id} && IsNewModule(id, def, t.modules[id])
    requires forall x :: x in s.modules ==> t.modules[x] == s.modules[x]
    ensures DefsOk(t) && id !in s.defs
  {
  }

  lemma DeclareStatus(s: State, t: State, id: nat, def: Definition, m: Module)
    requires StatusOk(s) && IsDeclare(s, t, id, def, m)
    ensures StatusOk(t)
    ensures id !in s.declared
  {
  }

  lemma DeclarePlugins(s: State, t: State, id: nat, def: Definition, m: Module)
    requires PluginsOk(s) && id !in s.declared && IsDeclare(s, t, id, def, m)
    ensures PluginsOk(t)
  {
    ResourcesGrow(s, t);
    hide IsPlugin, IsResource;
    forall p | p in s.inversePlugin ensures IsPlugin(t.declared, p) {
      PluginsGrow(s.declared, t.declared, p);
    }
  }

  lemma ResourcesGrow(s: State, t: State)
    requires PluginsOk(s) && forall x :: x in s.declared ==> x in t.declared && t.declared[x] == s.declared[x]
    ensures forall p, i :: p in s.inversePlugin && 0 <= i < |s.inversePlugin[p]| ==>
      IsResource(t.declared, s.inversePlugin[p][i], p)
  {
    hide Names, IsPlugin;
    forall p, i | p in s.inversePlugin && 0 <= i < |s.inversePlugin[p]|
      ensures IsResource(t.declared, s.inversePlugin[p][i], p)
    {
      assert IsResource(s.declared, s.inversePlugin[p][i], p);
      NamesGrow(s.declared, t.declared, s.inversePlugin[p][i]);
    }
  }

  lemma DeclareLists(s: State, t: State, id: nat, def: Definition, m: Module)
    requires IdsOk(s) && ListsOk(s) && IsDeclare(s, t, id, def, m)
    ensures IdsOk(t) && ListsOk(t)
  {
    StackOkGrows(Whole(s), s.declared, t.declared);
    NothingOwedToStranger(Whole(s), s.declared, id);
  }

  lemma DeclareCounts(s: State, t: State, id: nat, def: Definition, m: Module)
    requires IdsOk(s) && ListsOk(s) && StatusOk(s) && CountedOk(s) && ProgressOk(s, {}) && IsDeclare(s, t, id, def, m)
    ensures CountedOk(t) && ProgressOk(t, {})
  {
    StrangerIsNotCounted(s, id);
    hide ListsOk, StatusOk, IdsOk;
    DeclareCounted(s, t, id, def, m);
    DeclareProgress(s, t, id, def, m);
  }

  lemma DeclareCounted(s: State, t: State, id: nat, def: Definition, m: Module)
    requires CountedOk(s) && IsDeclare(s, t, id, def, m) && id !in s.begun && id !in s.notified
    requires Owed(Whole(s), id) == 0 && Occurrences(s.inverse, id, s.nextId) == 0
    ensures CountedOk(t)
  {
    DeclareOwes(s, t, id, def, m);
    hide Occurrences, Owed, Whole;
  }

  lemma DeclareProgress(s: State, t: State, id: nat, def: Definition, m: Module)
    requires ProgressOk(s, {}) && IsDeclare(s, t, id, def, m)
    ensures ProgressOk(t, {})
  {
    DeclareOwes(s, t, id, def, m);
    hide Resolvings;
  }

  lemma DeclareOwes(s: State, t: State, id: nat, def: Definition, m: Module)
    requires IsDeclare(s, t, id, def, m)
    ensures forall x :: Owed(Whole(t), x) == Owed(Whole(s), x) + if x == id then |def.deps| else 0
    ensures forall x :: Resolvings(t.stack, x) == Resolvings(s.stack, x) + if x == id then 1 else 0
  {
  }

  lemma StrangerIsNotCounted(s: State, id: nat)
    requires IdsOk(s) && ListsOk(s) && StatusOk(s) && id !in s.modules
    ensures Owed(Whole(s), id) == 0 && Resolvings(Whole(s), id) == 0 && Occurrences(s.inverse, id, s.nextId) == 0
    ensures id !in s.begun && id !in s.notified
  {
    NothingOwedToStranger(Whole(s), s.declared, id);
    assert forall d :: id !in Waiting(s.inverse, d);
    OccurrencesOfStranger(s.inverse, id, s.nextId);
  }

  lemma DeclareSettles(s: State, t: State, id: nat, def: Definition, m: Module)
    requires StatusOk(s) && SettledOk(s) && IsDeclare(s, t, id, def, m)
    ensures SettledOk(t)
  {
    StackOkGrows(Whole(s), s.declared, t.declared);
    SettledFrame(s, t);
  }

  // ---------- one dependency is dealt with at once: built in, already begun, or dropped from a cycle ----------

  /** The resolve loop on top of the stack looks at dependency dep of module id. */
  ghost predicate AtDependency(s: State, id: nat, dep: Dependency) {
    && s.stack.Resolving? && s.stack.id == id && s.stack.left > 0
    && id in s.modules && id in s.declared
    && s.stack.visited < |s.declared[id]| && s.declared[id][s.stack.visited] == dep
  }

  ghost function NextDependency(stack: Stack): Stack
    requires stack.Resolving? && stack.left > 0
  {
    stack.(visited := stack.visited + 1, left := stack.left - 1)
  }

  ghost predicate IsSettle(s: State, t: State, id: nat, dep: Dependency, passed: bool, cycle: Option<seq<nat>>) {
    && AtDependency(s, id, dep)
    && (cycle.Some? ==>
        && !dep.Builtin()
        && Reaches(ModuleGraph(s.modules), dep.Id(), id)
        && IsCycleReport(ModuleGraph(s.modules), cycle.value, dep.Id(), id))
    && (dep.Builtin() || dep.Id() in s.begun || cycle.Some?)
    && passed == (s.modules[id].exportsPassedIn || dep.Exports?)
    && t == s.(modules := s.modules[id := s.modules[id].(
                 unresolved := s.modules[id].unresolved - 1, exportsPassedIn := passed)],
               stack := NextDependency(s.stack),
               hasCycle := s.hasCycle || cycle.Some?,
               reports := s.reports + (if cycle.Some? then [cycle.value] else []),
               broken := s.broken + (if cycle.Some? then {(id, dep.Id())} else {}))
  }

  lemma SettleKeeps(s: State, t: State, id: nat, dep: Dependency, passed: bool, cycle: Option<seq<nat>>)
    requires Inv(s, {}) && IsSettle(s, t, id, dep, passed, cycle)
    ensures Inv(t, {}) && Grows(s, t)
  {
    hide IdsOk, StatusOk, ListsOk, CountedOk, ProgressOk, SettledOk, BrokenOk, NoWaitCycle, PluginsOk;
    hide HistoryOk, RequestedOk, DefsOk, UnwoundOk;
    SettleStatus(s, t, id, dep, passed, cycle);
    SettleLists(s, t, id, dep, passed, cycle);
    SettlePlugins(s, t, id, dep, passed, cycle);
    SettleCounts(s, t, id, dep, passed, cycle);
    SettleSettles(s, t, id, dep, passed, cycle);
    SettleBreaks(s, t, id, dep, passed, cycle);
    SettleDefs(s, t, id, dep, passed, cycle);
    HistoryFrame(s, t);
    UnwoundFrame(s, t);
    RequestedFrame(s, t);
  }

  lemma SettleDefs(s: State, t: State, id: nat, dep: Dependency, passed: bool, cycle: Option<seq<nat>>)
    requires DefsOk(s) && IsSettle(s, t, id, dep, passed, cycle)
    ensures DefsOk(t)
  {
    hide ModuleGraph, Reaches, IsCycleReport;
    DefsFrame(s, t);
  }

  lemma SettleStatus(s: State, t: State, id: nat, dep: Dependency, passed: bool, cycle: Option<seq<nat>>)
    requires StatusOk(s) && IsSettle(s, t, id, dep, passed, cycle)
    ensures StatusOk(t)
  {
    hide ModuleGraph, Reaches, IsCycleReport;
    assert forall x :: Runnings(Whole(t), x) == Runnings(Whole(s), x);
  }

  lemma SettlePlugins(s: State, t: State, id: nat, dep: Dependency, passed: bool, cycle: Option<seq<nat>>)
    requires PluginsOk(s) && IsSettle(s, t, id, dep, passed, cycle)
    ensures PluginsOk(t)
  {
    hide ModuleGraph, Reaches, IsCycleReport;
  }

  lemma SettleLists(s: State, t: State, id: nat, dep: Dependency, passed: bool, cycle: Option<seq<nat>>)
    requires IdsOk(s) && ListsOk(s) && IsSettle(s, t, id, dep, passed, cycle)
    ensures IdsOk(t) && ListsOk(t)
  {
    hide ModuleGraph, Reaches, IsCycleReport;
    NextOnStack(s, t);
    hide Resolvings, StackOk;
  }

  lemma SettleCounts(s: State, t: State, id: nat, dep: Dependency, passed: bool, cycle: Option<seq<nat>>)
    requires CountedOk(s) && ProgressOk(s, {}) && IsSettle(s, t, id, dep, passed, cycle)
    ensures CountedOk(t) && ProgressOk(t, {})
  {
    assert forall x :: Owed(Whole(t), x) == Owed(Whole(s), x) - if x == id then 1 else 0;
  }

  lemma SettleSettles(s: State, t: State, id: nat, dep: Dependency, passed: bool, cycle: Option<seq<nat>>)
    requires SettledOk(s) && IsSettle(s, t, id, dep, passed, cycle)
    ensures SettledOk(t)
  {
    hide ModuleGraph, Reaches, IsCycleReport;
    SettledFrame(s, t);
  }

  lemma ReportsAppend(g: Graph, reports: seq<seq<nat>>, broken: set<(nat, nat)>, report: seq<nat>, d: nat, x: nat)
    requires ReportsOk(g, reports, broken) && IsCycleReport(g, report, d, x)
    ensures ReportsOk(g, reports + [report], broken + {(x, d)})
    ensures HasReport(g, reports + [report], d, x)
    ensures forall y, e :: HasReport(g, reports, e, y) ==> HasReport(g, reports + [report], e, y)
  {
    hide IsCycleReport;
    var more := reports + [report];
    assert more[|reports|] == report && (x, d) in broken + {(x, d)};
    forall k | 0 <= k < |more| ensures IsReportOf(g, more[k], broken + {(x, d)}) {
      if k < |reports| {
        var y, e :| (y, e) in broken && IsCycleReport(g, reports[k], e, y);
        assert (y, e) in broken + {(x, d)};
      }
    }
    forall y, e | HasReport(g, reports, e, y) ensures HasReport(g, more, e, y) {
      var k :| 0 <= k < |reports| && IsCycleReport(g, reports[k], e, y);
      assert more[k] == reports[k];
    }
  }

  lemma SettleBreaks(s: State, t: State, id: nat, dep: Dependency, passed: bool, cycle: Option<seq<nat>>)
    requires StatusOk(s) && BrokenOk(s) && IsSettle(s, t, id, dep, passed, cycle)
    ensures BrokenOk(t)
  {
    hide IsCycleReport, Reaches, HasReport, ReportsOk;
    if cycle.Some? {
      var g, h := ModuleGraph(s.modules), DeclaredGraph(t.declared);
      assert SubGraph(g, h) by { ModuleGraphIsDeclared(s); }
      ReachesInSuperGraph(g, h, dep.Id(), id);
      ReportGrows(g, h, cycle.value, dep.Id(), id);
      ReportsAppend(h, s.reports, s.broken, cycle.value, dep.Id(), id);
      assert DependsOn(t.declared[id], dep.Id());
    } else {
      assert t.broken == s.broken && t.reports == s.reports;
    }
  }

  lemma ModuleGraphIsDeclared(s: State)
    requires StatusOk(s)
    ensures SubGraph(ModuleGraph(s.modules), DeclaredGraph(s.declared))
  {
    forall a, b | Edge(ModuleGraph(s.modules), a, b) ensures Edge(DeclaredGraph(s.declared), a, b) {
      assert s.modules[a].dependencies == Some(s.declared[a]);
    }
  }

  // ---------- one dependency is waited for ----------

  /** All that is waited for will be on its way once d is. */
  ghost predicate RequestedOnce(s: State, d: nat) {
    RequestedOk(s.(known := s.known + {d}))
  }

  /** All that is waited for is on its way, d excepted. */
  ghost predicate RequestedExcept(s: State, d: nat) {
    forall e :: Waiting(s.inverse, e) != [] && e != d ==> Requested(s, e)
  }

  lemma RequestExcepted(s: State, d: nat)
    requires RequestedExcept(s, d)
    ensures RequestedOnce(s, d)
  {
    var u := s.(known := s.known + {d});
    forall e | Waiting(u.inverse, e) != [] ensures Requested(u, e) {
      if e != d {
        assert Requested(s, e);
        if HeldByPlugin(s, e) { assert HeldByPlugin(u, e); }
      }
    }
  }

  ghost predicate IsWait(s: State, t: State, id: nat, dep: Dependency) {
    && AtDependency(s, id, dep) && !dep.Builtin()
    && dep.Id() !in s.begun
    && !Reaches(ModuleGraph(s.modules), dep.Id(), id)
    && t == s.(inverse := s.inverse[dep.Id() := Waiting(s.inverse, dep.Id()) + [id]],
               stack := NextDependency(s.stack))
  }

  lemma WaitKeeps(s: State, t: State, id: nat, dep: Dependency)
    requires Inv(s, {}) && IsWait(s, t, id, dep)
    ensures Core(t, {}) && RequestedExcept(t, dep.Id()) && Grows(s, t)
  {
    hide IdsOk, StatusOk, ListsOk, CountedOk, ProgressOk, SettledOk, BrokenOk, NoWaitCycle, PluginsOk;
    hide HistoryOk, RequestedOk, DefsOk, UnwoundOk;
    WaitStatus(s, t, id, dep);
    WaitLists(s, t, id, dep);
    WaitCounts(s, t, id, dep);
    WaitSettles(s, t, id, dep);
    WaitStaysAcyclic(s, t, id, dep);
    WaitRequests(s, t, id, dep);
    QuietFrame(s, t);
  }

  lemma WaitStatus(s: State, t: State, id: nat, dep: Dependency)
    requires StatusOk(s) && PluginsOk(s) && IsWait(s, t, id, dep)
    ensures StatusOk(t) && PluginsOk(t)
  {
  }

  lemma WaitLists(s: State, t: State, id: nat, dep: Dependency)
    requires IdsOk(s) && ListsOk(s) && StatusOk(s) && IsWait(s, t, id, dep)
    ensures IdsOk(t) && ListsOk(t)
  {
    NextOnStack(s, t);
    hide Resolvings, StackOk, Runnings, Owed, Whole, ModuleGraph, Reaches;
    assert DependsOn(s.declared[id], dep.Id());
    forall d, x | x in Waiting(t.inverse, d) ensures x in t.declared && DependsOn(t.declared[x], d) {
      assert x in Waiting(s.inverse, d) || (d == dep.Id() && x == id);
    }
  }

  lemma WaitOwes(s: State, t: State, id: nat, dep: Dependency, x: nat)
    requires dep.Id() < s.nextId && IsWait(s, t, id, dep)
    ensures Occurrences(t.inverse, x, t.nextId) + Owed(Whole(t), x)
      == Occurrences(s.inverse, x, s.nextId) + Owed(Whole(s), x)
  {
    hide ModuleGraph, Reaches;
    OccurrencesChange(s.inverse, t.inverse, x, dep.Id(), s.nextId);
    CountAppend(Waiting(s.inverse, dep.Id()), x, id);
  }

  lemma WaitCounts(s: State, t: State, id: nat, dep: Dependency)
    requires IdsOk(s) && CountedOk(s) && ProgressOk(s, {}) && IsWait(s, t, id, dep)
    ensures CountedOk(t) && ProgressOk(t, {})
  {
    assert dep.Id() < s.nextId;
    hide IdsOk, ModuleGraph, Reaches;
    forall x
      ensures Occurrences(t.inverse, x, t.nextId) + Owed(Whole(t), x)
        == Occurrences(s.inverse, x, s.nextId) + Owed(Whole(s), x)
    {
      WaitOwes(s, t, id, dep, x);
    }
    assert forall x :: Resolvings(t.stack, x) == Resolvings(s.stack, x);
  }

  lemma WaitSettles(s: State, t: State, id: nat, dep: Dependency)
    requires SettledOk(s) && IsWait(s, t, id, dep)
    ensures SettledOk(t)
  {
    hide ModuleGraph, Reaches;
    SettledFrame(s, t);
  }

  /** Nobody on the far side of a waiting chain has been completed, so the chain is one of dependencies backwards. */
  lemma WaitIsDependency(s: State, d: nat, x: nat)
    requires IdsOk(s) && ListsOk(s) && StatusOk(s) && CountedOk(s) && x in Waiting(s.inverse, d)
    ensures x !in s.begun && Edge(ModuleGraph(s.modules), x, d)
  {
    OccurrencesOfMember(s.inverse, x, d, s.nextId);
    var j :| 0 <= j < |s.declared[x]| && !s.declared[x][j].Builtin() && s.declared[x][j].Id() == d;
    assert Ids(s.declared[x])[j] == d;
  }

  lemma {:induction false} WaitChainIsDependencyChain(s: State, p: seq<nat>, a: nat, b: nat)
    requires IdsOk(s) && ListsOk(s) && StatusOk(s) && CountedOk(s) && ChainBetween(s.inverse, p, a, b)
    ensures Reaches(ModuleGraph(s.modules), b, a)
    decreases |p|
  {
    var g := ModuleGraph(s.modules);
    assert Edge(s.inverse, p[0], p[1]);
    WaitIsDependency(s, p[0], p[1]);
    EdgeReaches(g, p[1], p[0]);
    if |p| <= 2 {
    } else {
      var q := p[1..];
      forall i | 0 <= i < |q| - 1 ensures Edge(s.inverse, q[i], q[i + 1]) {
        assert Edge(s.inverse, p[i + 1], p[i + 2]);
      }
      WaitChainIsDependencyChain(s, q, p[1], b);
      Append(g, b, p[1], p[0]);
    }
  }

  lemma WaitStaysAcyclic(s: State, t: State, id: nat, dep: Dependency)
    requires IdsOk(s) && ListsOk(s) && StatusOk(s) && CountedOk(s) && NoWaitCycle(s.inverse) && IsWait(s, t, id, dep)
    ensures NoWaitCycle(t.inverse)
  {
    WaitLeadsNowhere(s, t, id, dep);
    hide Reaches, Whole;
    var rank :| Ranked(s.inverse, rank);
    var lifted := RankNewEdge(s.inverse, rank, t.inverse, dep.Id(), id);
  }

  /** Nobody who waits for id, directly or not, is what id is going to wait for. */
  lemma WaitLeadsNowhere(s: State, t: State, id: nat, dep: Dependency)
    requires IdsOk(s) && ListsOk(s) && StatusOk(s) && CountedOk(s) && IsWait(s, t, id, dep)
    ensures dep.Id() != id && !Reaches(s.inverse, id, dep.Id())
  {
    var d := dep.Id();
    NotBegunWhileResolving(s, id);
    assert Ids(s.declared[id])[s.stack.visited] == d;
    assert Edge(ModuleGraph(s.modules), id, d);
    hide IdsOk, ListsOk, StatusOk, CountedOk, ModuleGraph, Whole, Owed;
    if d == id {
      EdgeReaches(ModuleGraph(s.modules), id, d);
    }
    if Reaches(s.inverse, id, d) {
      var p :| ChainBetween(s.inverse, p, id, d);
      WaitChainIsDependencyChain(s, p, id, d);
    }
  }

  lemma NotBegunWhileResolving(s: State, id: nat)
    requires CountedOk(s) && s.stack.Resolving? && s.stack.id == id && s.stack.left > 0 && id in s.modules
    ensures id !in s.begun
  {
    assert Owed(Whole(s), id) > 0;
  }

  lemma WaitRequests(s: State, t: State, id: nat, dep: Dependency)
    requires RequestedOk(s) && IsWait(s, t, id, dep)
    ensures RequestedExcept(t, dep.Id())
  {
    forall d | Waiting(t.inverse, d) != [] && d != dep.Id() ensures Requested(t, d) {
      assert Requested(s, d);
      if HeldByPlugin(s, d) { assert HeldByPlugin(t, d); }
    }
  }

  // ---------- the log grows by one entry ----------

  lemma AppendKeeps(s: State, t: State, e: Entry)
    requires HistoryOk(s) && StatusOk(s)
    requires t.log == s.log + [e]
    requires t.begun == s.begun + (if e.Completing? then {e.id} else {})
    requires t.ended == s.ended + (if e.Completed? then {e.id} else {})
    requires t.notified == s.notified + (if e.DependencyError? then {e.id} else {})
    requires t.known == s.known + (if e.ScriptRequested? then {e.id} else {})
    requires t.broken == s.broken && t.declared == s.declared
    requires e.Completing? ==>
      e.id !in s.begun && e.id !in s.notified && CallOk(s.log, |s.log|, e.id, e.args, s.declared, s.broken)
    requires e.Completed? ==>
      && e.id in s.begun && e.id !in s.ended
      && e.id in t.modules && t.modules[e.id].exports == e.exports && t.modules[e.id].error == e.error
    requires e.ScriptRequested? ==>
      && e.id !in s.known && IsAskable(s.declared, e.id, e.plugin)
      && (e.plugin.Some? ==> e.plugin.value in s.begun || e.plugin.value in s.notified)
    requires forall x :: x in s.ended && x in s.modules ==>
      && x in t.modules && t.modules[x].exports == s.modules[x].exports
      && (x !in t.notified ==> t.modules[x].error == s.modules[x].error)
    ensures HistoryOk(t)
  {
    AppendLinks(s, t, e);
    AppendOnce(s, t, e);
    AppendOrder(s, t, e);
    AppendAsked(s, t, e);
    AppendExports(s, t, e);
    hide AskedOk, LogLinks, OnceOk, OrderOk, StatusOk, ExportsOk;
  }

  lemma AppendExports(s: State, t: State, e: Entry)
    requires ExportsOk(s) && LogLinks(s) && StatusOk(s)
    requires t.log == s.log + [e] && s.notified <= t.notified
    requires e.Completed? ==>
      e.id in t.modules && t.modules[e.id].exports == e.exports && t.modules[e.id].error == e.error
    requires forall x :: x in s.ended && x in s.modules ==>
      && x in t.modules && t.modules[x].exports == s.modules[x].exports
      && (x !in t.notified ==> t.modules[x].error == s.modules[x].error)
    ensures ExportsOk(t)
  {
    forall k, x | EndsAt(t.log, k, x)
      ensures x in t.modules && t.modules[x].exports == t.log[k].exports
      ensures x !in t.notified ==> t.modules[x].error == t.log[k].error
    {
      if k < |s.log| { assert EndsAt(s.log, k, x); }
    }
  }

  lemma AppendAsked(s: State, t: State, e: Entry)
    requires LogLinks(s) && AskedOk(s.log, s.declared)
    requires t.log == s.log + [e] && t.declared == s.declared
    requires e.ScriptRequested? ==>
      && IsAskable(s.declared, e.id, e.plugin)
      && (e.plugin.Some? ==> e.plugin.value in s.begun || e.plugin.value in s.notified)
    ensures AskedOk(t.log, t.declared)
  {
    hide IsAskable;
    var n := |s.log|;
    assert t.log[n] == e;
    assert forall i, x :: i < n ==> (BeginsAt(t.log, i, x) <==> BeginsAt(s.log, i, x));
    assert forall i, x :: i < n ==> (FailsAt(t.log, i, x) <==> FailsAt(s.log, i, x));
    forall k | 0 <= k < |t.log| ensures IsAskedInOrder(t.log, k, t.declared) {
      if k < n {
        assert IsAskedInOrder(s.log, k, s.declared);
      } else if e.ScriptRequested? && e.plugin.Some? {
        if e.plugin.value in s.begun {
          var i :| BeginsAt(s.log, i, e.plugin.value);
          assert BeginsAt(t.log, i, e.plugin.value);
        } else {
          var i :| FailsAt(s.log, i, e.plugin.value);
          assert FailsAt(t.log, i, e.plugin.value);
        }
      }
    }
  }

  lemma AppendLinks(s: State, t: State, e: Entry)
    requires LogLinks(s)
    requires t.log == s.log + [e]
    requires t.begun == s.begun + (if e.Completing? then {e.id} else {})
    requires t.ended == s.ended + (if e.Completed? then {e.id} else {})
    requires t.notified == s.notified + (if e.DependencyError? then {e.id} else {})
    requires t.known == s.known + (if e.ScriptRequested? then {e.id} else {})
    ensures LogLinks(t)
  {
    var n := |s.log|;
    assert t.log[n] == e;
    assert forall k, x :: k != n ==> (BeginsAt(t.log, k, x) <==> BeginsAt(s.log, k, x));
    assert forall k, x :: k != n ==> (EndsAt(t.log, k, x) <==> EndsAt(s.log, k, x));
    assert forall k, x :: k != n ==> (FailsAt(t.log, k, x) <==> FailsAt(s.log, k, x));
    assert forall k, x :: k != n ==> (RequestedAt(t.log, k, x) <==> RequestedAt(s.log, k, x));
    if e.Completing? { assert BeginsAt(t.log, n, e.id); }
    if e.Completed? { assert EndsAt(t.log, n, e.id); }
    if e.DependencyError? { assert FailsAt(t.log, n, e.id); }
    if e.ScriptRequested? { assert RequestedAt(t.log, n, e.id); }
  }

  lemma AppendOnce(s: State, t: State, e: Entry)
    requires LogLinks(s) && OnceOk(s.log)
    requires t.log == s.log + [e]
    requires e.Completing? ==> e.id !in s.begun && e.id !in s.notified
    requires e.Completed? ==> e.id in s.begun && e.id !in s.ended
    requires e.ScriptRequested? ==> e.id !in s.known
    ensures OnceOk(t.log)
  {
    var n := |s.log|;
    assert t.log[n] == e;
    assert forall k, x :: k != n ==> (BeginsAt(t.log, k, x) <==> BeginsAt(s.log, k, x));
    assert forall k, x :: k != n ==> (EndsAt(t.log, k, x) <==> EndsAt(s.log, k, x));
    assert forall k, x :: k != n ==> (FailsAt(t.log, k, x) <==> FailsAt(s.log, k, x));
    assert forall k, x :: k != n ==> (RequestedAt(t.log, k, x) <==> RequestedAt(s.log, k, x));
    forall k, x | EndsAt(t.log, k, x) ensures exists i :: i < k && BeginsAt(t.log, i, x) {
      if k == n {
        var i :| BeginsAt(s.log, i, x);
        assert BeginsAt(t.log, i, x);
      } else {
        assert EndsAt(s.log, k, x);
        var i :| i < k && BeginsAt(s.log, i, x);
        assert BeginsAt(t.log, i, x);
      }
    }
  }

  lemma CallOkLater(log: seq<Entry>, e: Entry, k: nat, x: nat, args: seq<Argument>,
      declared: map<nat, seq<Dependency>>, broken: set<(nat, nat)>)
    requires k <= |log| && CallOk(log, k, x, args, declared, broken)
    ensures CallOk(log + [e], k, x, args, declared, broken)
  {
    var longer := log + [e];
    assert forall i, d :: i < k ==> (BeginsAt(longer, i, d) <==> BeginsAt(log, i, d));
    assert forall i, d :: i < k ==> (EndsAt(longer, i, d) <==> EndsAt(log, i, d));
    forall j | 0 <= j < |args| ensures ArgumentOk(longer, k, x, declared[x][j], args[j], broken) {
      assert ArgumentOk(log, k, x, declared[x][j], args[j], broken);
    }
  }

  lemma AppendOrder(s: State, t: State, e: Entry)
    requires OrderOk(s.log, s.declared, s.broken)
    requires t.log == s.log + [e] && t.broken == s.broken && t.declared == s.declared
    requires e.Completing? ==> CallOk(s.log, |s.log|, e.id, e.args, s.declared, s.broken)
    ensures OrderOk(t.log, t.declared, t.broken)
  {
    forall k | 0 <= k < |t.log| && t.log[k].Completing?
      ensures CallOk(t.log, k, t.log[k].id, t.log[k].args, t.declared, t.broken)
    {
      CallOkLater(s.log, e, k, t.log[k].id, t.log[k].args, s.declared, s.broken);
    }
  }

  // ---------- requests and reports ----------

  ghost predicate IsReport(s: State, t: State, id: nat) {
    t == s.(log := s.log + [ErrorReported(id)])
  }

  lemma ReportKeeps(s: State, t: State, id: nat, pivot: set<nat>)
    requires Inv(s, pivot) && IsReport(s, t, id)
    ensures Inv(t, pivot) && Grows(s, t)
  {
    hide IdsOk, StatusOk, ListsOk, CountedOk, ProgressOk, SettledOk, BrokenOk, NoWaitCycle, PluginsOk;
    hide HistoryOk, RequestedOk, DefsOk, UnwoundOk;
    PlainFrame(s, t, pivot);
    AppendKeeps(s, t, ErrorReported(id));
    DefsFrame(s, t);
    UnwoundFrame(s, t);
    BrokenFrame(s, t);
    RequestedFrame(s, t);
  }

  ghost predicate IsCatch(s: State, t: State, inside: bool) {
    t == s.(log := s.log + [Caught(inside)])
  }

  lemma CatchKeeps(s: State, t: State, inside: bool, pivot: set<nat>)
    requires Inv(s, pivot) && IsCatch(s, t, inside)
    ensures Inv(t, pivot) && Grows(s, t)
  {
    hide IdsOk, StatusOk, ListsOk, CountedOk, ProgressOk, SettledOk, BrokenOk, NoWaitCycle, PluginsOk;
    hide HistoryOk, RequestedOk, DefsOk, UnwoundOk;
    PlainFrame(s, t, pivot);
    AppendKeeps(s, t, Caught(inside));
    DefsFrame(s, t);
    UnwoundFrame(s, t);
    BrokenFrame(s, t);
    RequestedFrame(s, t);
  }

  /** Clauses that depend neither on the log nor on the set of known ids. */
  lemma PlainFrame(s: State, t: State, pivot: set<nat>)
    requires IdsOk(s) && ListsOk(s) && StatusOk(s) && CountedOk(s) && ProgressOk(s, pivot)
    requires SettledOk(s) && PluginsOk(s)
    requires t == s.(log := t.log, known := t.known, inversePlugin := t.inversePlugin)
    requires forall p :: p in t.inversePlugin ==> p in s.inversePlugin || (p !in s.ended && IsPlugin(s.declared, p))
    requires forall p, i :: p in t.inversePlugin && 0 <= i < |t.inversePlugin[p]| ==>
      || (p in s.inversePlugin && t.inversePlugin[p][i] in s.inversePlugin[p])
      || IsResource(s.declared, t.inversePlugin[p][i], p)
    ensures IdsOk(t) && ListsOk(t) && StatusOk(t) && CountedOk(t) && ProgressOk(t, pivot)
    ensures SettledOk(t) && PluginsOk(t)
  {
    PlainPlugins(s, t);
    hide PluginsOk;
    SettledFrame(s, t);
  }

  lemma PlainPlugins(s: State, t: State)
    requires PluginsOk(s) && t == s.(log := t.log, known := t.known, inversePlugin := t.inversePlugin)
    requires forall p :: p in t.inversePlugin ==> p in s.inversePlugin || (p !in s.ended && IsPlugin(s.declared, p))
    requires forall p, i :: p in t.inversePlugin && 0 <= i < |t.inversePlugin[p]| ==>
      || (p in s.inversePlugin && t.inversePlugin[p][i] in s.inversePlugin[p])
      || IsResource(s.declared, t.inversePlugin[p][i], p)
    ensures PluginsOk(t)
  {
    hide IsPlugin, IsResource;
  }

  ghost predicate IsRequest(s: State, t: State, d: nat, plugin: Option<nat>) {
    && d !in s.modules && d !in s.known && IsAskable(s.declared, d, plugin)
    && (plugin.Some? ==> plugin.value in s.begun || plugin.value in s.notified)
    && t == s.(known := s.known + {d}, log := s.log + [ScriptRequested(d, plugin)])
  }

  lemma RequestKeeps(s: State, t: State, d: nat, plugin: Option<nat>, pivot: set<nat>)
    requires Core(s, pivot) && RequestedOnce(s, d) && IsRequest(s, t, d, plugin)
    ensures Inv(t, pivot) && Grows(s, t)
  {
    hide IdsOk, StatusOk, ListsOk, CountedOk, ProgressOk, SettledOk, BrokenOk, NoWaitCycle, PluginsOk;
    hide HistoryOk, RequestedOk, DefsOk, UnwoundOk;
    PlainFrame(s, t, pivot);
    AppendKeeps(s, t, ScriptRequested(d, plugin));
    DefsFrame(s, t);
    UnwoundFrame(s, t);
    BrokenFrame(s, t);
    RequestedFrame(s.(known := s.known + {d}), t);
  }

  /** Nothing needs to be requested for an id that is already defined or known. */
  lemma AlreadyRequested(s: State, d: nat)
    requires RequestedOnce(s, d) && (d in s.modules || d in s.known)
    ensures RequestedOk(s)
  {
    var u := s.(known := s.known + {d});
    forall e | Waiting(s.inverse, e) != [] ensures Requested(s, e) {
      assert Requested(u, e);
      if HeldByPlugin(u, e) { assert HeldByPlugin(s, e); }
    }
  }

  /** A resource is put on the list of a plugin that is not complete yet. */
  ghost predicate IsHold(s: State, t: State, dep: Dependency) {
    && dep.Plugin? && dep.pluginId !in s.begun && IsPlugin(s.declared, dep.pluginId) && Names(s.declared, dep)
    && t == s.(inversePlugin := s.inversePlugin[dep.pluginId :=
        (if dep.pluginId in s.inversePlugin then s.inversePlugin[dep.pluginId] else []) + [dep]])
  }

  lemma HoldKeeps(s: State, t: State, dep: Dependency, pivot: set<nat>)
    requires Core(s, pivot) && RequestedExcept(s, dep.Id()) && IsHold(s, t, dep)
    ensures Core(t, pivot) && RequestedOnce(t, dep.pluginId) && Grows(s, t)
  {
    hide IdsOk, StatusOk, ListsOk, CountedOk, ProgressOk, SettledOk, BrokenOk, NoWaitCycle, PluginsOk;
    hide HistoryOk, RequestedOk, DefsOk, UnwoundOk;
    assert dep.pluginId !in s.ended by { NeverEndedUnbegun(s, dep.pluginId); }
    PlainFrame(s, t, pivot);
    QuietFrame(s, t);
    HoldRequests(s, t, dep);
  }

  lemma NeverEndedUnbegun(s: State, x: nat)
    requires StatusOk(s) && x !in s.begun
    ensures x !in s.ended
  {
  }

  lemma HoldRequests(s: State, t: State, dep: Dependency)
    requires RequestedExcept(s, dep.Id()) && IsHold(s, t, dep)
    ensures RequestedOnce(t, dep.pluginId)
  {
    var u := t.(known := t.known + {dep.pluginId});
    var list := u.inversePlugin[dep.pluginId];
    assert Ids(list)[|list| - 1] == dep.Id();
    assert HeldByPlugin(u, dep.Id());
    forall d | Waiting(u.inverse, d) != [] && d != dep.Id() ensures Requested(u, d) {
      assert Requested(s, d);
      if HeldByPlugin(s, d) {
        var p :| p in s.inversePlugin && (p in s.modules || p in s.known) && d in Ids(s.inversePlugin[p]);
        if p == dep.pluginId {
          var j :| 0 <= j < |Ids(s.inversePlugin[p])| && Ids(s.inversePlugin[p])[j] == d;
          assert Ids(u.inversePlugin[p])[j] == d;
        }
        assert p in u.inversePlugin && (p in u.modules || p in u.known) && d in Ids(u.inversePlugin[p]);
      }
    }
  }
}
