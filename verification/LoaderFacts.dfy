/** What the methods of the module manager use: readings of the invariant, and small steps of whole runs. */
module LoaderFacts {
  import opened Basics
  import opened Graphs
  import opened LoaderState
  import opened LoaderSteps
  import opened LoaderCompletion
  import opened LoaderScripts
  import opened LoaderScenes
  import opened PathSearch

  /** What is thrown when a script makes a second anonymous definition. */
  const SECOND_ANONYMOUS: nat := 0

  /** What the specification keeps account of beside the manager's own fields. */
  datatype Track = Track(
    stack: Stack,
    dead: Stack,
    log: seq<Entry>,
    defs: map<nat, Definition>,
    declared: map<nat, seq<Dependency>>,
    begun: set<nat>,
    ended: set<nat>,
    notified: set<nat>,
    broken: set<(nat, nat)>,
    occurred: seq<Event>,
    dropped: multiset<Event>,
    missed: set<(nat, nat)>,
    flying: bool)

  function Incomplete(modules: map<nat, Module>): set<nat> {
    set x | x in modules && !modules[x].isComplete
  }

  ghost function Due(events: seq<Event>): nat {
    if events == [] then 0 else 1
  }

  /** What has been defined, and what has failed to load, shows in the state from then on. */
  ghost predicate HasHappened(s: State, event: Event) {
    && (event.Define? ==> event.id in s.modules)
    && (event.LoadError? ==> event.id in s.notified)
  }

  lemma FirstAndRest(events: seq<Event>)
    requires |events| > 0
    ensures multiset(events) == multiset{events[0]} + multiset(events[1..])
    ensures forall before: seq<Event> :: (before + [events[0]]) + events[1..] == before + events
  {
    assert events == [events[0]] + events[1..];
  }

  lemma AllHaveHappened(s: State, t: State, events: seq<Event>)
    requires Grows(s, t) && |events| > 0 && HasHappened(s, events[0])
    requires forall j :: 0 <= j < |events| - 1 ==> HasHappened(t, events[1..][j])
    ensures forall j :: 0 <= j < |events| ==> HasHappened(t, events[j])
  {
    forall j | 0 < j < |events| ensures HasHappened(t, events[j]) {
      assert events[1..][j - 1] == events[j];
    }
  }

  // ---------- consequences of the invariant that the methods use ----------

  lemma ModuleFacts(s: State, pivot: set<nat>, x: nat)
    requires Core(s, pivot) && x in s.modules
    ensures s.modules[x].unresolved >= 0
    ensures x in s.declared && x < s.nextId
    ensures s.modules[x].isComplete <==> x in s.begun || x in s.notified
    ensures s.modules[x].isComplete && s.modules[x].error == None ==> x in s.begun
    ensures s.modules[x].dependencies == if x in s.ended then None else Some(s.declared[x])
    ensures x in s.ended ==> x in s.begun
    ensures s.modules[x].isComplete && s.modules[x].error.Some? && x !in s.begun ==> x in s.notified
    ensures x in s.notified ==> s.modules[x].isComplete
  {
  }

  lemma DefinedIsStored(s: State, pivot: set<nat>)
    requires Core(s, pivot)
    ensures s.defs.Keys == s.modules.Keys && s.declared.Keys == s.modules.Keys && s.notified <= s.modules.Keys
  {
  }

  /** A module that still looks at its dependencies, or waits for one, has not begun. */
  lemma OwedNotBegun(s: State, pivot: set<nat>, x: nat)
    requires Core(s, pivot) && x in s.modules
    requires Owed(Whole(s), x) > 0 || exists d :: x in Waiting(s.inverse, d)
    ensures x !in s.begun && s.modules[x].unresolved > 0
  {
    hide StatusOk, ListsOk, ProgressOk, SettledOk, BrokenOk, NoWaitCycle, PluginsOk, DefsOk, HistoryOk, UnwoundOk;
    OwedIsCounted(s, x);
  }

  lemma OwedIsCounted(s: State, x: nat)
    requires IdsOk(s) && CountedOk(s) && x in s.modules
    requires Owed(Whole(s), x) > 0 || exists d :: x in Waiting(s.inverse, d)
    ensures x !in s.begun && s.modules[x].unresolved > 0
  {
    if Owed(Whole(s), x) == 0 {
      var d :| x in Waiting(s.inverse, d);
      OccurrencesOfMember(s.inverse, x, d, s.nextId);
    }
  }

  lemma OnTopIsOwed(s: State, id: nat)
    requires s.stack.Resolving? && s.stack.id == id && s.stack.left > 0
    ensures Owed(Whole(s), id) > 0
  {
  }

  lemma RunningIsBegun(s: State, pivot: set<nat>, id: nat)
    requires Core(s, pivot) && s.stack.Running? && s.stack.id == id
    ensures id in s.begun && id !in s.ended && id in s.modules && id in s.defs && id in s.declared
    ensures s.modules[id].callback == s.defs[id].callback && s.modules[id].exports == Fresh(id)
  {
    assert Runnings(Whole(s), id) > 0;
  }

  lemma NotYetBegun(s: State, pivot: set<nat>, x: nat)
    requires Core(s, pivot) && x in s.modules && !s.modules[x].isComplete
    ensures x !in s.begun && x !in s.ended && x !in s.notified && x in s.defs
    ensures s.modules[x].dependencies == Some(s.declared[x]) && s.modules[x].callback == s.defs[x].callback
  {
  }

  lemma UndefinedNotBegun(s: State, pivot: set<nat>, x: nat)
    requires Core(s, pivot) && (x in s.modules ==> !s.modules[x].isComplete)
    ensures x !in s.begun
  {
  }

  lemma CoreIsBounded(s: State, pivot: set<nat>)
    requires Core(s, pivot)
    ensures Bounded(s.modules, s.nextId)
  {
    forall x, j | x in s.modules && s.modules[x].dependencies.Some? && 0 <= j < |s.modules[x].dependencies.value|
      ensures s.modules[x].dependencies.value[j].Id() < s.nextId
    {
      assert s.modules[x].dependencies.value == s.declared[x];
    }
  }

  lemma PendingIsDefined(s: State, pivot: set<nat>)
    requires Core(s, pivot) && s.stack.Releasing? && s.stack.pending != []
    ensures s.stack.pending[0] in s.modules
  {
  }

  lemma InvIsCore(s: State, pivot: set<nat>)
    requires Inv(s, pivot)
    ensures Core(s, pivot) && RequestedOk(s)
  {
  }

  lemma CoreIsInv(s: State, pivot: set<nat>)
    requires Core(s, pivot) && RequestedOk(s)
    ensures Inv(s, pivot)
  {
  }

  lemma PivotAdded(s: State, x: nat)
    requires Inv(s, {})
    ensures Inv(s, {x})
  {
  }

  lemma WaitersAreDefined(s: State, pivot: set<nat>)
    requires Core(s, pivot)
    ensures WaitersIn(s.inverse, s.modules.Keys, s.nextId)
  {
    hide StatusOk, CountedOk, ProgressOk, SettledOk, BrokenOk, NoWaitCycle, PluginsOk, DefsOk, HistoryOk;
    forall d: nat, x: nat {:trigger x in Waiting(s.inverse, d)} | x in Waiting(s.inverse, d)
      ensures x in s.modules.Keys && x < s.nextId
    {
      assert x in s.declared;
    }
  }

  /** Foreign code used up some of the script, or nothing but completions happened. */
  ghost predicate Calmer(l0: Script, m0: map<nat, Module>, l1: Script, m1: map<nat, Module>) {
    l1.Size() < l0.Size() || (l1 == l0 && Incomplete(m1) <= Incomplete(m0))
  }

  /** Foreign code used up some of the script, or the module id and perhaps others were completed. */
  ghost predicate Fewer(l0: Script, m0: map<nat, Module>, l1: Script, m1: map<nat, Module>, id: nat) {
    l1.Size() < l0.Size() || (l1 == l0 && Incomplete(m1) <= Incomplete(m0) - {id})
  }

  /** How a factory's end shows: a throw leaves the exports alone; a return replaces them unless they are in use. */
  ghost predicate IsOutcome(id: nat, before: Module, m: Module, outcome: FactoryOutcome) {
    match outcome
    case Threw(token) =>
      m.exports == before.exports && m.error == Some(Error(InFactory, id, token))
    case Returned(result, exportsEmpty) =>
      m.error == before.error
      && m.exports == if result.Some? && (!before.exportsPassedIn || exportsEmpty) then result.value else before.exports
    case NotInvoked(exportsEmpty) =>
      m.error == before.error
      && m.exports == if !before.exportsPassedIn || exportsEmpty then Null else before.exports
  }

  /** The dependency has failed before. */
  ghost predicate FailsBy(modules: map<nat, Module>, dep: Dependency) {
    !dep.Builtin() && dep.Id() in modules && modules[dep.Id()].isComplete && modules[dep.Id()].error.Some?
  }

  /** The dependency has been completed, or at least begun. */
  ghost predicate IsThere(modules: map<nat, Module>, dep: Dependency) {
    !dep.Builtin() && dep.Id() in modules && modules[dep.Id()].isComplete && modules[dep.Id()].error.None?
  }

  /** Some dependency has failed before, so that a module with this list fails at once. */
  ghost predicate Doomed(modules: map<nat, Module>, id: nat, deps: seq<Dependency>) {
    exists j :: 0 <= j < |deps| && deps[j].Id() != id && FailsBy(modules, deps[j])
  }

  // ---------- a failed script ----------

  function Placeholder(id: nat): Module {
    Module(Some([]), Factory, false, 0, false, None, false, Fresh(id))
  }

  /** The module with the given id as a failing script finds or makes it. */
  function FoundOrMade(modules: map<nat, Module>, x: nat): Module {
    if x in modules then modules[x] else Placeholder(x)
  }

  ghost predicate Distinct(ids: seq<nat>) {
    forall i, j :: 0 <= i < j < |ids| ==> ids[i] != ids[j]
  }

  ghost function Notices(ids: seq<nat>): (entries: seq<Entry>)
    ensures |entries| == |ids|
  {
    seq(|ids|, i requires 0 <= i < |ids| => DependencyError(ids[i]))
  }

  /** Exactly the modules in ids have been told about err. */
  ghost predicate Told(before: map<nat, Module>, after: map<nat, Module>, ids: seq<nat>, err: Error) {
    && after.Keys == before.Keys
    && forall x :: x in before ==>
         after[x] == if x in ids then before[x].(isComplete := true, error := Some(err)) else before[x]
  }

  /** The modules a failure of id concerns: itself and whoever waits for it, directly or not. */
  ghost predicate Affected(inverse: Graph, id: nat, x: nat) {
    x == id || Reaches(inverse, id, x)
  }

  ghost predicate SomeErrorback(modules: map<nat, Module>, ids: seq<nat>) {
    exists i :: 0 <= i < |ids| && ids[i] in modules && modules[ids[i]].hasErrorback
  }

  lemma TellOne(before: map<nat, Module>, halfway: map<nat, Module>, after: map<nat, Module>, ids: seq<nat>, x: nat,
      err: Error)
    requires Told(before, halfway, ids, err) && x in before
    requires after == halfway[x := halfway[x].(isComplete := true, error := Some(err))]
    ensures Told(before, after, ids + [x], err)
  {
  }

  lemma AskOne(before: map<nat, Module>, halfway: map<nat, Module>, ids: seq<nat>, x: nat, err: Error)
    requires Told(before, halfway, ids, err) && x in before
    ensures SomeErrorback(before, ids + [x]) <==> halfway[x].hasErrorback || SomeErrorback(before, ids)
  {
    var more := ids + [x];
    assert more[|ids|] == x;
    if SomeErrorback(before, ids) {
      var i :| 0 <= i < |ids| && ids[i] in before && before[ids[i]].hasErrorback;
      assert more[i] == ids[i];
    }
  }

  lemma NobodyTold(modules: map<nat, Module>, err: Error)
    ensures Told(modules, modules, [], err) && !SomeErrorback(modules, [])
  {
  }

  lemma OnlyStart(g: Graph, id: nat, n: nat, keys: set<nat>)
    requires id < n && id in keys
    ensures var marks := seq(n, i => false)[id := true];
      Marked(marks, id) && AllReached(g, id, marks) && Enlisted([], [id], marks, keys) && Explored(g, [], marks)
    ensures Notices([]) == []
  {
    assert [] + [id] == [id];
  }

  lemma QueuedIsDefined(order: seq<nat>, queue: seq<nat>, marks: seq<bool>, keys: set<nat>)
    requires Enlisted(order, queue, marks, keys) && queue != []
    ensures queue[0] in keys
  {
  }

  lemma NoticesAppend(ids: seq<nat>, x: nat)
    ensures Notices(ids + [x]) == Notices(ids) + [DependencyError(x)]
  {
  }

  /** When the queue has run dry, those who have been told are exactly those concerned. */
  lemma EveryoneTold(inverse: Graph, id: nat, order: seq<nat>, marks: seq<bool>, keys: set<nat>)
    requires Marked(marks, id) && AllReached(inverse, id, marks) && Explored(inverse, order, marks)
    requires Enlisted(order, [], marks, keys)
    ensures Distinct(order) && forall x :: x in order <==> Affected(inverse, id, x)
  {
    assert order + [] == order;
    forall x | x !in order ensures !Affected(inverse, id, x) {
      ClosedSetBlocks(inverse, (set y | y in order), id, x);
    }
  }

  lemma AddDistinct(ids: seq<nat>, x: nat)
    requires Distinct(ids) && x !in ids
    ensures Distinct(ids + [x])
  {
  }

  /** When everyone concerned has been told, no failure is overlooked. */
  lemma TellStep(script: Script, a: Scene, b: Scene, id: nat, order: seq<nat>, err: Error)
    requires InState(a, b) && Fair(script, a) && Grows(a.s, b.s) && !a.flying
    requires b.s.notified == a.s.notified + (set x | x in order) && b.s.log == a.s.log + Notices(order)
    requires b.s.inverse == a.s.inverse && b.s.begun == a.s.begun && b.s.defs == a.s.defs && b.s.broken == a.s.broken
    requires b.s.ended == a.s.ended && b.s.dead == a.s.dead && !NoLoadError(a.occurred)
    requires Told(a.s.modules, b.s.modules, order, err)
    requires forall x :: x in order <==> Affected(a.s.inverse, id, x)
    ensures Fair(script, b) && Leads(a, b, {}) && Budget(b) == Budget(a)
  {
    GrowsLater(a.s, b.s);
    TellAccounted(script, a, b, id, order);
    if IsQuiet(script) {
      UninterruptedStays(a.s.log, Notices(order));
    }
    hide Grows, Uninterrupted, After, AccountOk, IsQuiet, Affected, Notices;
  }

  lemma TellAccounted(script: Script, a: Scene, b: Scene, id: nat, order: seq<nat>)
    requires InState(a, b) && AccountOk(script, a) && !NoLoadError(a.occurred) && !a.flying
    requires b.s.notified == a.s.notified + (set x | x in order) && b.s.log == a.s.log + Notices(order)
    requires b.s.inverse == a.s.inverse && b.s.begun == a.s.begun && b.s.ended == a.s.ended && b.s.dead == a.s.dead
    requires IsLater(a.s, b.s)
    requires forall x :: x in order <==> Affected(a.s.inverse, id, x)
    ensures AccountOk(script, b)
  {
    TellHeard(a, b, id, order);
    assert IsLater(a.s, b.s);
    DependencyErrorsCallNothing(a.s.log, Notices(order));
    ThrownAppendAll(script, a, b, Notices(order));
    hide HeardOk, Affected, Notices, ThrownOk, MadeOk, FlightOk, IsDisturbed, NoLoadError, NoErrors;
  }

  lemma TellHeard(a: Scene, b: Scene, id: nat, order: seq<nat>)
    requires HeardOk(a.s, a.missed) && b.missed == a.missed
    requires b.s.notified == a.s.notified + (set x | x in order)
    requires b.s.inverse == a.s.inverse && b.s.begun == a.s.begun
    requires forall x :: x in order <==> Affected(a.s.inverse, id, x)
    ensures HeardOk(b.s, b.missed)
  {
    forall d, x | d in b.s.notified && x in Waiting(b.s.inverse, d) && x !in b.s.notified ensures (d, x) in b.missed {
      if d in order {
        assert Edge(a.s.inverse, d, x);
        StepFrom(a.s.inverse, id, d, x);
      }
    }
  }

  lemma BegunStays(s: State, t: State, x: nat)
    requires Grows(s, t) && x in s.begun
    ensures x in t.begun
  {
  }

  /** The resources held for a plugin belong to it, and some module depends on each of them. */
  lemma HeldAreResources(s: State, pivot: set<nat>, p: nat)
    requires Core(s, pivot) && p in s.inversePlugin
    ensures AreResources(s.declared, s.inversePlugin[p], p)
  {
  }

  ghost predicate AreResources(declared: map<nat, seq<Dependency>>, resources: seq<Dependency>, p: nat) {
    forall i :: 0 <= i < |resources| ==> IsResource(declared, resources[i], p)
  }

  lemma IsOneOf(declared: map<nat, seq<Dependency>>, resources: seq<Dependency>, p: nat, i: nat)
    requires AreResources(declared, resources, p) && i < |resources|
    ensures IsResource(declared, resources[i], p)
  {
  }

  lemma ResourcesStay(s: State, t: State, resources: seq<Dependency>, p: nat)
    requires Grows(s, t) && AreResources(s.declared, resources, p)
    ensures AreResources(t.declared, resources, p)
  {
    hide Names;
    forall i | 0 <= i < |resources| ensures IsResource(t.declared, resources[i], p) {
      NamesGrow(s.declared, t.declared, resources[i]);
    }
  }

  lemma BegunIsDefined(s: State, pivot: set<nat>, x: nat)
    requires Core(s, pivot) && x in s.begun
    ensures x in s.modules && s.modules[x].isComplete
  {
  }

  lemma DeclarationGrows(s: State, t: State, x: nat)
    requires Grows(s, t) && x in s.modules && x in s.declared && x in s.defs
    ensures x in t.modules && x in t.declared && t.declared[x] == s.declared[x]
    ensures x in t.defs && t.defs[x] == s.defs[x]
    ensures x in s.notified ==> x in t.notified
    ensures x in s.begun ==> x in t.begun
  {
  }

  lemma LeadsGrows(a: Scene, b: Scene, except: set<nat>)
    requires Leads(a, b, except)
    ensures Grows(a.s, b.s) && b.left.Size() <= a.left.Size() && a.occurred <= b.occurred
  {
  }

  lemma ResolvedFurther(a: Scene, b: Scene, c: Scene, id: nat)
    requires Leads(a, b, {id}) && Leads(b, c, {id})
    requires id in b.s.modules && id in b.s.declared && id in b.s.defs
    ensures Leads(a, c, {id}) && c.left.Size() <= b.left.Size() <= a.left.Size()
    ensures id in c.s.modules && id in c.s.declared && id in c.s.defs && c.s.declared[id] == b.s.declared[id]
  {
    hide Leads, Grows;
    LeadsTransitive(a, b, c, {id});
    LeadsGrows(a, b, {id});
    LeadsGrows(b, c, {id});
    DeclarationGrows(b.s, c.s, id);
  }

  lemma LeadsBreaks(a: Scene, b: Scene, except: set<nat>, x: nat, d: nat)
    requires Leads(a, b, except) && x in a.s.modules && x !in except
    ensures (x, d) in b.s.broken <==> (x, d) in a.s.broken
  {
  }

  lemma LeadsSteady(a: Scene, b: Scene, except: set<nat>, x: nat)
    requires Leads(a, b, except) && x in a.s.modules && x !in except
    ensures x in b.s.modules && (a.s.modules[x].isComplete ==> b.s.modules[x].isComplete)
    ensures a.s.modules[x].unresolved > 0 ==> b.s.modules[x].isComplete || b.s.modules[x].unresolved > 0
  {
  }

  lemma EmptyIsOk(s: State)
    requires s == State(3, map[], {}, map[], map[], false, [], Idle, Idle, [], map[], map[], {}, {}, {}, {})
    ensures Inv(s, {})
  {
    hide IdsOk, StatusOk, ListsOk, CountedOk, ProgressOk, SettledOk, BrokenOk, NoWaitCycle, PluginsOk;
    hide HistoryOk, RequestedOk, DefsOk, UnwoundOk;
    EmptyIsSettled(s);
    EmptyIsListed(s);
    EmptyHistory(s);
  }

  lemma EmptyIsSettled(s: State)
    requires s == State(3, map[], {}, map[], map[], false, [], Idle, Idle, [], map[], map[], {}, {}, {}, {})
    ensures CountedOk(s) && SettledOk(s) && BrokenOk(s) && ProgressOk(s, {}) && UnwoundOk(s)
  {
  }

  lemma EmptyIsListed(s: State)
    requires s == State(3, map[], {}, map[], map[], false, [], Idle, Idle, [], map[], map[], {}, {}, {}, {})
    ensures IdsOk(s) && ListsOk(s) && StatusOk(s) && PluginsOk(s) && RequestedOk(s) && DefsOk(s)
  {
  }

  lemma EmptyHistory(s: State)
    requires s == State(3, map[], {}, map[], map[], false, [], Idle, Idle, [], map[], map[], {}, {}, {}, {})
    ensures HistoryOk(s) && NoWaitCycle(s.inverse)
  {
    assert Ranked(s.inverse, x => 0);
  }

  lemma EmptyIsFair(script: Script, a: Scene)
    requires a.s == State(3, map[], {}, map[], map[], false, [], Idle, Idle, [], map[], map[], {}, {}, {}, {})
    requires a == Scene(a.s, None, script, [], multiset{}, {}, a.catchError, false)
    ensures Fair(script, a) && Budget(a) == Pending(script)
  {
    hide HeardOk, IsLeft, IsQuiet, Uninterrupted, After, Pending, Requests, Runs, LoadEvents, FactoryEvents, Drop;
    hide CalmOk, ThrownOk, MadeOk, FlightOk;
    NothingHeard(a.s);
    NothingUsed(script);
    NothingRecorded();
    NothingWrong(script, a);
    assert multiset([]) + multiset{} + Pending(script) == Pending(script);
  }

  lemma NothingHeard(s: State)
    requires s.notified == {}
    ensures HeardOk(s, {})
  {
  }

  lemma NothingRecorded()
    ensures After([]) == Tables(map[], None) && Uninterrupted([])
  {
  }

  lemma NothingWrong(script: Script, a: Scene)
    requires a.dropped == multiset{} && a.s.dead == Idle && a.s.notified == {} && a.s.modules == map[] && a.s.log == []
    ensures CalmOk(script, a) && ThrownOk(script, a) && MadeOk(script, a) && FlightOk(script, a)
  {
  }

  lemma NothingUsed(script: Script)
    ensures IsLeft(script, [], script)
  {
  }

  /** Whoever waits is among the given modules and has an id below n. */
  ghost predicate WaitersIn(inverse: Graph, keys: set<nat>, n: nat) {
    forall d: nat, x: nat {:trigger x in Waiting(inverse, d)} :: x in Waiting(inverse, d) ==> x in keys && x < n
  }

  lemma WaiterIn(inverse: Graph, keys: set<nat>, n: nat, d: nat, x: nat)
    requires WaitersIn(inverse, keys, n) && x in Waiting(inverse, d)
    ensures x in keys && x < n
  {
  }

  /** Marked are exactly those told or queued, nobody twice, all of them among the given modules. */
  ghost predicate Enlisted(order: seq<nat>, queue: seq<nat>, marks: seq<bool>, keys: set<nat>) {
    && Distinct(order + queue)
    && (forall x :: Marked(marks, x) <==> x in order || x in queue)
    && (forall x :: x in queue ==> x in keys)
  }

  /** Whoever waits for one who has been told is marked. */
  ghost predicate Explored(inverse: Graph, order: seq<nat>, marks: seq<bool>) {
    forall x, y :: x in order && y in Waiting(inverse, x) ==> Marked(marks, y)
  }

  lemma Advance(order: seq<nat>, queue: seq<nat>, marks: seq<bool>, keys: set<nat>)
    requires queue != [] && Enlisted(order, queue, marks, keys)
    ensures Enlisted(order + [queue[0]], queue[1..], marks, keys)
  {
    assert (order + [queue[0]]) + queue[1..] == order + queue;
    assert queue == [queue[0]] + queue[1..];
  }

  /** Without foreign code a new module fails exactly if a dependency has failed before, and then never begins. */
  ghost predicate EndsUp(s: State, t: State, id: nat, deps: seq<Dependency>) {
    && t.notified == s.notified + (if Doomed(s.modules, id, deps) then {id} else {})
    && (Doomed(s.modules, id, deps) ==> id !in t.begun)
  }

  /** All modules but one are as before. */
  ghost predicate SameOthers(before: map<nat, Module>, after: map<nat, Module>, id: nat) {
    && (forall x :: x != id ==> (x in after <==> x in before))
    && (forall x :: x != id && x in before ==> after[x] == before[x])
  }

  lemma DoomedLater(before: map<nat, Module>, after: map<nat, Module>, id: nat, dep: Dependency)
    requires SameOthers(before, after, id) && dep.Id() != id
    ensures FailsBy(after, dep) <==> FailsBy(before, dep)
  {
  }

  lemma LeadsAroundNew(a: Scene, b: Scene, c: Scene, id: nat)
    requires Leads(a, b, {}) && Leads(b, c, {id}) && id !in a.s.modules
    ensures Leads(a, c, {})
  {
    hide Grows, Steady, NewBreaks, KeepsWaiting;
    GrowsTransitive(a.s, b.s, c.s);
    WaitingTransitive(a.s, b.s, c.s);
    SteadyAroundNew(a.s.modules, b.s.modules, c.s.modules, id);
    BreaksAroundNew(a.s, b.s, c.s, id);
  }

  lemma SteadyAroundNew(l: map<nat, Module>, m: map<nat, Module>, n: map<nat, Module>, id: nat)
    requires Steady(l, m, {}) && Steady(m, n, {id}) && id !in l
    ensures Steady(l, n, {})
  {
    forall x | x in l
      ensures x in n && (l[x].isComplete ==> n[x].isComplete)
      ensures l[x].unresolved > 0 ==> n[x].isComplete || n[x].unresolved > 0
    {
      assert x in m;
    }
  }

  lemma BreaksAroundNew(s: State, t: State, u: State, id: nat)
    requires NewBreaks(s, t, {}) && NewBreaks(t, u, {id}) && Grows(s, t) && id !in s.modules
    ensures NewBreaks(s, u, {})
  {
    forall x, d | (x, d) in u.broken && (x, d) !in s.broken ensures x !in s.modules {
      if (x, d) !in t.broken {
        assert x in s.modules ==> x in t.modules;
      }
    }
  }

  // ---------- what becomes of one dependency ----------

  ghost predicate IsCycle(modules: map<nat, Module>, id: nat, dep: Dependency) {
    && !dep.Builtin() && (dep.Id() in modules ==> !modules[dep.Id()].isComplete)
    && Reaches(ModuleGraph(modules), dep.Id(), id)
  }

  ghost predicate IsWaitedFor(modules: map<nat, Module>, id: nat, dep: Dependency) {
    && !dep.Builtin() && (dep.Id() in modules ==> !modules[dep.Id()].isComplete)
    && !Reaches(ModuleGraph(modules), dep.Id(), id)
  }

  /** The module has been told of the error, and those who wait for it have not. */
  ghost predicate IsFailure(a: Scene, b: Scene, id: nat, err: Error) {
    b == a.(s := b.s, missed := a.missed + Overlooked(a.s, id)) && IsNotify(a.s, b.s, id, err)
  }

  function CountedDown(m: Module, exports: bool): Module {
    m.(exportsPassedIn := m.exportsPassedIn || exports, unresolved := m.unresolved - 1)
  }

  /** The counter has gone down by one, and the next dependency is due; nothing else has changed. */
  ghost predicate IsCountedDown(a: Scene, b: Scene, id: nat, exports: bool) {
    && id in a.s.modules && a.s.stack.Resolving? && a.s.stack.left > 0
    && b == a.(s := a.s.(modules := a.s.modules[id := CountedDown(a.s.modules[id], exports)],
                         stack := NextDependency(a.s.stack)))
  }

  /** As before, and the cycle has been reported and broken. */
  ghost predicate IsBroken(a: Scene, b: Scene, id: nat, dep: Dependency) {
    && id in a.s.modules && a.s.stack.Resolving? && a.s.stack.left > 0
    && exists report :: IsCycleReport(ModuleGraph(a.s.modules), report, dep.Id(), id) && b == a.(s := a.s.(
         hasCycle := true, reports := a.s.reports + [report], broken := a.s.broken + {(id, dep.Id())},
         modules := a.s.modules[id := CountedDown(a.s.modules[id], false)], stack := NextDependency(a.s.stack)))
  }

  /** What is asked for first: the dependency, or the plugin that it needs. */
  function FirstAsked(modules: map<nat, Module>, dep: Dependency): nat {
    if dep.Plugin? && !(dep.pluginId in modules && modules[dep.pluginId].isComplete) then dep.pluginId else dep.Id()
  }

  /** The module waits, unless something has happened since; the dependency is on its way, and no cycle was broken. */
  ghost predicate IsAskedFor(a: Scene, b: Scene, id: nat, dep: Dependency) {
    && (FirstAsked(a.s.modules, dep) in b.s.modules || FirstAsked(a.s.modules, dep) in b.s.known)
    && ((id, dep.Id()) in b.s.broken <==> (id, dep.Id()) in a.s.broken)
    && (id in b.s.notified || Settled(b.s, id, dep.Id()))
  }

  lemma UndefinedNotTold(s: State, pivot: set<nat>, x: nat)
    requires Core(s, pivot) && (x in s.modules ==> !s.modules[x].isComplete)
    ensures x !in s.notified
  {
  }

  lemma AfterWait(s: State, t: State, id: nat, dep: Dependency)
    requires IsWait(s, t, id, dep) && Core(t, {})
    ensures id in t.modules && t.modules[id].unresolved > 0
    ensures t.modules == s.modules && t.broken == s.broken && t.declared == s.declared
    ensures t.stack == NextDependency(s.stack) && t.stack.Resolving? && t.stack.id == id
    ensures dep.Plugin? ==> IsPlugin(t.declared, dep.pluginId)
    ensures Names(t.declared, dep)
    ensures t.notified == s.notified && t.dead == s.dead
  {
    hide Core, Reaches, ModuleGraph;
    assert id in Waiting(t.inverse, dep.Id());
    OwedNotBegun(t, {}, id);
    assert t.declared[id][s.stack.visited] == dep;
    if dep.Plugin? {
      assert IsPluginEntry(t.declared, id, s.stack.visited, dep.pluginId);
    }
  }

  /** The dependency that the topmost resolve loop has dealt with last is settled. */
  lemma LastIsSettled(s: State, t: State, id: nat, dep: Dependency)
    requires AtDependency(s, id, dep) && !dep.Builtin() && Grows(s, t) && t.stack == NextDependency(s.stack)
    requires SettledOk(t) && id !in t.notified
    ensures Settled(t, id, dep.Id())
  {
    assert IsVisited(t, id, s.stack.visited);
  }

  lemma CoreIsSettled(s: State, pivot: set<nat>)
    requires Core(s, pivot)
    ensures SettledOk(s)
  {
  }

  // ---------- who is to blame ----------

  ghost predicate Blameless(modules: map<nat, Module>, id: nat, deps: seq<Dependency>) {
    forall j :: 0 <= j < |deps| ==> deps[j].Id() == id || !FailsBy(modules, deps[j])
  }

  /** Without foreign code: one module fails, or else its dependencies so far are not to blame. */
  ghost predicate ResolvesStill(a: Scene, b: Scene, id: nat, deps: seq<Dependency>, i: nat, failed: bool)
    requires i <= |deps|
  {
    && AloneChanges(a, b, id, failed)
    && (if failed then Doomed(a.s.modules, id, deps) else Blameless(a.s.modules, id, deps[..i]))
  }

  /** Nothing happens to other modules, and to this one only what it does itself. */
  ghost predicate AloneChanges(a: Scene, b: Scene, id: nat, failed: bool) {
    && b.s.dead == a.s.dead && b.occurred == a.occurred && b.left.Size() == a.left.Size()
    && SameOthers(a.s.modules, b.s.modules, id) && id in a.s.modules && id in b.s.modules
    && (b.s.modules[id].isComplete <==> failed || a.s.modules[id].isComplete)
    && b.s.notified == a.s.notified + (if failed then {id} else {})
  }

  lemma BlameNobody(a: Scene, id: nat, deps: seq<Dependency>)
    requires id in a.s.modules && !a.s.modules[id].isComplete
    ensures ResolvesStill(a, a, id, deps, 0, false)
  {
  }

  lemma BlameOne(a: Scene, b: Scene, c: Scene, id: nat, deps: seq<Dependency>, i: nat, failed: bool)
    requires i < |deps| && ResolvesStill(a, b, id, deps, i, false) && !a.s.modules[id].isComplete
    requires AloneChanges(b, c, id, failed) && (failed <==> FailsBy(b.s.modules, deps[i]))
    ensures ResolvesStill(a, c, id, deps, if failed then i else i + 1, failed)
  {
    if deps[i].Id() != id {
      DoomedLater(a.s.modules, b.s.modules, id, deps[i]);
    }
    assert deps[..i + 1] == deps[..i] + [deps[i]];
  }

  lemma Judge(a: Scene, b: Scene, c: Scene, id: nat, deps: seq<Dependency>, i: nat, failed: bool)
    requires i <= |deps| && (failed || i == |deps|)
    requires ResolvesStill(a, b, id, deps, i, failed) && Still(b, c) && c.left.Size() == b.left.Size()
    requires failed ==> c.s == b.s.(stack := c.s.stack) && id !in b.s.begun
    ensures EndsUp(a.s, c.s, id, deps) && c.s.dead == a.s.dead && c.occurred == a.occurred
  {
    assert deps[..|deps|] == deps;
  }

  lemma EndsUpLater(s: State, t: State, u: State, id: nat, def: Definition, m: Module)
    requires IsDeclare(s, t, id, def, m)
    ensures EndsUp(t, u, id, def.deps) ==> EndsUp(s, u, id, def.deps)
  {
    forall dep: Dependency | dep.Id() != id ensures FailsBy(t.modules, dep) <==> FailsBy(s.modules, dep) {
    }
    assert Doomed(t.modules, id, def.deps) <==> Doomed(s.modules, id, def.deps);
  }

  lemma CountedDownStep(script: Script, a: Scene, b: Scene, id: nat, exports: bool)
    requires IsCountedDown(a, b, id, exports) && Grows(a.s, b.s) && Fair(script, a)
    ensures Fair(script, b) && Leads(a, b, {id}) && Budget(b) == Budget(a)
    ensures b.s.stack == NextDependency(a.s.stack)
    ensures AloneChanges(a, b, id, false)
  {
    hide Grows, Fair;
    InnerStep(script, a, b, {id});
  }

  lemma FailureFacts(a: Scene, b: Scene, id: nat, err: Error)
    requires IsFailure(a, b, id, err)
    ensures b.s.stack == a.s.stack && id in b.s.notified && b.s.begun == a.s.begun
    ensures AloneChanges(a, b, id, true)
  {
  }

  lemma BrokenFacts(a: Scene, b: Scene, id: nat, dep: Dependency)
    requires IsBroken(a, b, id, dep)
    ensures b.s.stack == NextDependency(a.s.stack)
    ensures AloneChanges(a, b, id, false)
  {
    hide IsCycleReport;
  }

  lemma WaitedFacts(a: Scene, b: Scene, id: nat)
    requires Still(a, b) && b.left.Size() == a.left.Size() && id in a.s.modules && b.s.modules == a.s.modules
    ensures AloneChanges(a, b, id, false)
  {
  }

  /** Only modules, failures and log change while a failure is passed on. */
  ghost predicate IsTelling(a: Scene, b: Scene) {
    b == a.(s := a.s.(modules := b.s.modules, notified := b.s.notified, log := b.s.log))
  }

  // ---------- steps of events and completions ----------

  lemma OccurOne(script: Script, a: Scene, b: Scene, e: Event)
    requires Fair(script, a) && b == a.(occurred := a.occurred + [e])
    ensures FairFor(script, b, Effect(Tables(a.s.defs, a.anonymous), e))
    ensures Leads(a, b, {}) && Budget(b) == Budget(a) + multiset{e}
    ensures e.LoadError? ==> !NoLoadError(b.occurred)
    ensures e.DefineAnonymous? && a.anonymous.Some? ==> SecondAnonymous(b.occurred)
  {
    EffectOfOne(a.occurred, e);
    GrowsReflexive(a.s);
    OccurAccounted(script, a, b, e);
    hide Uninterrupted, AccountOk, Pending, Grows, After, Effect, NoLoadError, SecondAnonymous;
  }

  lemma EffectOfOne(events: seq<Event>, e: Event)
    ensures After(events + [e]) == Effect(After(events), e)
    ensures e.LoadError? ==> !NoLoadError(events + [e])
    ensures e.DefineAnonymous? && After(events).anonymous.Some? ==> SecondAnonymous(events + [e])
  {
    hide Effect;
    var more := events + [e];
    assert more[..|events|] == events && more[|events|] == e;
  }

  lemma OccurAccounted(script: Script, a: Scene, b: Scene, e: Event)
    requires AccountOk(script, a) && b == a.(occurred := a.occurred + [e])
    ensures AccountOk(script, b)
  {
    assert a.occurred <= b.occurred;
    DisturbedStays(script, a.occurred, b.occurred);
    hide HeardOk, IsLeft, IsEscape, IsDisturbed, NoLoadError, NoErrors, AllCatch;
  }

  /** The tables have been brought up to date, which is all that was missing. */
  lemma TakeOver(script: Script, a: Scene, b: Scene, tables: Tables)
    requires FairFor(script, a, tables) && b == a.(anonymous := b.anonymous)
    requires tables == Tables(b.s.defs, b.anonymous)
    ensures Fair(script, b) && Leads(a, b, {}) && Budget(b) == Budget(a)
  {
    GrowsReflexive(a.s);
    AccountedFrame(script, a, b);
    hide Uninterrupted, AccountOk, Pending, Grows, After;
  }

  lemma SetAnonymous(script: Script, a: Scene, b: Scene, tables: Tables)
    requires FairFor(script, a, tables) && b == a.(anonymous := b.anonymous)
    ensures FairFor(script, b, tables) && Leads(a, b, {}) && Budget(b) == Budget(a)
  {
    GrowsReflexive(a.s);
    AccountedFrame(script, a, b);
    hide Uninterrupted, AccountOk, Pending, Grows, After;
  }

  /** An exception keeps the rest of a sequence of events from happening. */
  lemma DropRest(script: Script, a: Scene, b: Scene, rest: multiset<Event>)
    requires Fair(script, a) && b == a.(dropped := a.dropped + rest) && !AllCatch(script)
    ensures Fair(script, b) && Leads(a, b, {}) && Budget(b) == Budget(a) + rest
  {
    GrowsReflexive(a.s);
    DropAccounted(script, a, b);
    hide Uninterrupted, AccountOk, Pending, Grows, After;
  }

  lemma DropAccounted(script: Script, a: Scene, b: Scene)
    requires AccountOk(script, a) && b == a.(dropped := b.dropped) && !AllCatch(script)
    ensures AccountOk(script, b)
  {
    hide HeardOk, IsLeft, IsEscape, IsDisturbed, NoLoadError, NoErrors, AllCatch;
  }

  /** An exception sets out. */
  lemma RaiseStep(script: Script, a: Scene, b: Scene)
    requires b == a.(flying := true)
    ensures Legal(script, a) ==> Legal(script, b)
    ensures Fair(script, a) ==> Fair(script, b)
    ensures Leads(a, b, {}) && Budget(b) == Budget(a)
  {
    GrowsReflexive(a.s);
    hide Uninterrupted, Pending, Grows, After, AccountOk;
    if AccountOk(script, a) {
      LaterReflexive(a.s);
      AccountedFrame(script, a, b);
    }
  }

  lemma LaterReflexive(s: State)
    ensures IsLater(s, s)
  {
  }

  lemma LegalIsFair(script: Script, a: Scene)
    requires Legal(script, a) && !IsQuiet(script)
    ensures Fair(script, a)
  {
  }

  /** A factory has been called: how it ended, what that makes of the module, and whether an exception escapes. */
  ghost predicate IsInvoked(b: Scene, id: nat, reaction: Reaction, m: Module, outcome: FactoryOutcome,
      thrown: Option<nat>, catchError: bool)
  {
    && id in b.s.modules
    && (reaction.outcome.Threw? ==> outcome.Threw?)
    && (outcome == reaction.outcome || (outcome.Threw? && Happenings(reaction) != [] && !reaction.catches))
    && (thrown.Some? <==> outcome.Threw? && !catchError)
    && (thrown.None? ==>
          && m == b.s.modules[id].(exports := m.exports, error := m.error)
          && IsOutcome(id, b.s.modules[id], m, outcome))
    && (thrown.None? && outcome.Threw? ==> b.s.log != [] && b.s.log[|b.s.log| - 1] == ErrorReported(id))
  }

  function Cleared(m: Module): Module {
    m.(dependencies := None, callback := NoCallback, hasErrorback := false)
  }

  /** The module has been completed with what it was defined with: nothing, a value, or a factory. */
  ghost predicate IsCompletion(a: Scene, b: Scene, id: nat, reaction: Reaction, m: Module, outcome: FactoryOutcome,
      thrown: Option<nat>, catchError: bool)
  {
    && id in b.s.modules && id in b.s.defs
    && if b.s.defs[id].callback.Factory? then
         exists f :: IsInvoked(b, id, reaction, f, outcome, thrown, catchError) && (thrown.None? ==> m == Cleared(f))
       else
         && thrown.None? && b == a && IsExportOf(b.s.defs[id].callback, id, m.exports)
         && m == Cleared(b.s.modules[id].(exports := m.exports))
  }

  /** The module as it can be stored. */
  ghost predicate IsFinal(s: State, id: nat, m: Module) {
    && id in s.modules && id in s.defs
    && m.dependencies == None && m.callback.NoCallback? && !m.hasErrorback && m.isComplete
    && m.unresolved == s.modules[id].unresolved
    && (s.modules[id].error.Some? ==> m.error.Some?)
    && IsExportOf(s.defs[id].callback, id, m.exports)
  }

  /** No event happens during a call, and so nothing changes but the log, by an error report. */
  ghost predicate IsQuietCall(a: Scene, b: Scene, id: nat, thrown: Option<nat>) {
    && b == a.(s := a.s.(log := b.s.log), flying := b.flying)
    && (b.s.log == a.s.log || (thrown.None? && b.s.log == a.s.log + [ErrorReported(id)]))
  }

  lemma InvokedIsFinal(b: Scene, id: nat, reaction: Reaction, f: Module, outcome: FactoryOutcome, thrown: Option<nat>,
      catchError: bool)
    requires IsInvoked(b, id, reaction, f, outcome, thrown, catchError) && thrown.None?
    requires b.s.modules[id].isComplete && id in b.s.defs && b.s.defs[id].callback.Factory?
    ensures IsFinal(b.s, id, Cleared(f))
  {
  }

  lemma InvokedIsCompletion(a: Scene, b: Scene, id: nat, reaction: Reaction, f: Module, outcome: FactoryOutcome,
      thrown: Option<nat>, catchError: bool)
    requires IsInvoked(b, id, reaction, f, outcome, thrown, catchError)
    requires id in b.s.defs && b.s.defs[id].callback.Factory?
    ensures IsCompletion(a, b, id, reaction, Cleared(f), outcome, thrown, catchError)
    ensures thrown.Some? ==> IsCompletion(a, b, id, reaction, f, outcome, thrown, catchError)
  {
  }

  /** A module without a factory is completed with the value that it was defined with, or its exports object. */
  lemma ValueIsCompletion(script: Script, a: Scene, id: nat, reaction: Reaction, m: Module, outcome: FactoryOutcome)
    requires id in a.s.modules && id in a.s.defs && !a.s.defs[id].callback.Factory? && a.s.modules[id].isComplete
    requires m == a.s.modules[id].(exports := m.exports) && IsExportOf(a.s.defs[id].callback, id, m.exports)
    ensures IsCompletion(a, a, id, reaction, Cleared(m), outcome, None, a.catchError)
    ensures IsFinal(a.s, id, Cleared(m)) && IsExcusedError(script, a, id, Cleared(m))
  {
  }

  /** In a quiet script nothing comes between the beginning of a completion and its end, but for an error report. */
  ghost predicate IsPerformed(script: Script, before: seq<Entry>, after: seq<Entry>, id: nat, thrown: Option<nat>) {
    IsQuiet(script) ==> exists middle :: IsMiddle(middle, id, thrown) && after == before + middle
  }

  ghost predicate IsMiddle(middle: seq<Entry>, id: nat, thrown: Option<nat>) {
    && 1 <= |middle| <= 2 && middle[0].Completing? && middle[0].id == id
    && (|middle| == 2 ==> thrown.None? && middle[1].ErrorReported?)
  }

  lemma PerformedInOrder(script: Script, a: Scene, b: Scene, c: Scene, id: nat, reaction: Reaction, thrown: Option<nat>)
    requires exists args, callback :: b.s.log == a.s.log + [Completing(id, args, callback)]
    requires IsReactionOf(script, reaction) && (Happenings(reaction) == [] ==> IsQuietCall(b, c, id, thrown))
    ensures IsPerformed(script, a.s.log, c.s.log, id, thrown)
  {
    ReactionFacts(script, reaction);
    if IsQuiet(script) {
      var args, callback :| b.s.log == a.s.log + [Completing(id, args, callback)];
      var middle := [Completing(id, args, callback)];
      if c.s.log != b.s.log {
        middle := middle + [ErrorReported(id)];
      }
      assert IsMiddle(middle, id, thrown) && c.s.log == a.s.log + middle;
    }
  }

  /** A completion from begin to end leaves the log in order. */
  lemma DeliveredInOrder(script: Script, a: Scene, c: Scene, d: Scene, id: nat, thrown: Option<nat>)
    requires Orderly(script, a) && IsPerformed(script, a.s.log, c.s.log, id, thrown)
    requires if thrown.Some? then d.s.log == c.s.log + [Unwound(id)]
      else exists exports, error :: d.s.log == c.s.log + [Completed(id, exports, error)]
    ensures Orderly(script, d)
  {
    if IsQuiet(script) {
      var middle :| IsMiddle(middle, id, thrown) && c.s.log == a.s.log + middle;
      UninterruptedCompletion(a.s.log, id, middle, d.s.log[|c.s.log|]);
    }
  }

  lemma CompletionMayEnd(a: Scene, b: Scene, c: Scene, id: nat, reaction: Reaction, m: Module, outcome: FactoryOutcome,
      thrown: Option<nat>)
    requires exists args :: IsBegin(a.s, b.s, id, args)
    requires IsCompletion(b, c, id, reaction, m, outcome, thrown, c.catchError) && thrown.None?
    requires Leads(b, c, {}) && a.s.defs == b.s.defs && id in a.s.defs && c.catchError == a.catchError
    requires id in a.s.modules && a.s.modules[id].callback == a.s.defs[id].callback
    ensures a.s.modules[id].callback.Factory? && reaction.outcome.Threw? ==> a.catchError
    ensures b.s.log <= c.s.log && id in c.s.defs && c.s.defs[id] == a.s.defs[id]
  {
    hide IsOutcome, IsBegin, Steady, NewBreaks, KeepsWaiting, IsExportOf;
  }

  lemma InvokedIsExcused(script: Script, b: Scene, id: nat, reaction: Reaction, f: Module, outcome: FactoryOutcome,
      thrown: Option<nat>)
    requires IsInvoked(b, id, reaction, f, outcome, thrown, b.catchError) && thrown.None?
    requires outcome.Threw? ==> IsDisturbed(script, b.occurred)
    ensures IsExcusedError(script, b, id, Cleared(f))
  {
    hide IsDisturbed;
  }

  lemma Unpeaceful(script: Script, occurred: seq<Event>)
    ensures !IsPeaceful(script) ==> IsDisturbed(script, occurred)
  {
  }

  lemma Uncaught(script: Script, occurred: seq<Event>)
    requires !AllCatch(script)
    ensures SecondAnonymous(occurred) ==> IsDisturbed(script, occurred)
    ensures !IsPeaceful(script) ==> IsDisturbed(script, occurred)
  {
  }

  lemma Excuse(script: Script, a: Scene)
    ensures IsDisturbed(script, a.occurred) && IsPeaceful(script) ==> SecondAnonymous(a.occurred)
  {
  }

  /** The completion that has just been carried out was not left by an exception. */
  lemma DeliveredMayEnd(script: Script, a: Scene, b: Scene, c: Scene, id: nat, reaction: Reaction, m: Module)
    requires exists args :: IsBegin(a.s, b.s, id, args)
    requires b.s.log <= c.s.log && OnceOk(c.s.log) && c.catchError == a.catchError
    requires IsNext(script, a.s, id, reaction)
    requires a.s.modules[id].callback.Factory? && reaction.outcome.Threw? ==> a.catchError
    requires a.s.modules[id].callback.Factory? ==>
      id in c.s.declared && IsMadeBy(id, c.s.declared[id], reaction, m.exports, m.error, id in c.s.notified)
    requires a.s.modules[id].callback.Factory? && reaction.outcome.Threw? ==>
      c.s.log != [] && c.s.log[|c.s.log| - 1] == ErrorReported(id)
    ensures MayEnd(script, c, id, m.exports, m.error)
  {
    hide IsMadeBy;
    var n := |a.s.log|;
    assert BeginsAt(c.s.log, n, id);
    forall k | 0 <= k < |c.s.log| && CallsFactory(c.s.log[k]) && c.s.log[k].id == id
      ensures !IsEscape(script, c.catchError, Runs(c.s.log[..k])) && id in c.s.declared
      ensures IsMadeBy(id, c.s.declared[id], FactoryCall(script, Runs(c.s.log[..k])), m.exports, m.error,
        id in c.s.notified)
      ensures FactoryCall(script, Runs(c.s.log[..k])).outcome.Threw? ==> c.s.log[|c.s.log| - 1] == ErrorReported(id)
    {
      assert BeginsAt(c.s.log, k, id);
      assert k == n;
      assert c.s.log[..n] == a.s.log;
    }
  }

  /** While a module runs its factory it is settled whether it uses its exports object. */
  lemma PassedIsKnown(s: State, pivot: set<nat>, id: nat)
    requires Core(s, pivot) && id in s.begun && id !in s.ended && id in s.modules && id in s.declared
    ensures s.modules[id].exportsPassedIn <==> PassesExports(s.declared[id])
    ensures id !in s.notified ==> s.modules[id].error.None?
  {
    hide ListsOk, ProgressOk, BrokenOk, NoWaitCycle, PluginsOk, DefsOk, HistoryOk, UnwoundOk;
    assert Owed(Whole(s), id) == 0;
    VisitedWhenPaid(Whole(s), s.declared, id);
    if PassesExports(s.declared[id]) {
      var j :| 0 <= j < |s.declared[id]| && s.declared[id][j].Exports?;
      assert IsPassed(s, id, j);
    }
  }

  lemma CompletionIsMade(b: Scene, c: Scene, id: nat, reaction: Reaction, m: Module, outcome: FactoryOutcome)
    requires Core(c.s, {}) && c.s.stack.Running? && c.s.stack.id == id
    requires IsCompletion(b, c, id, reaction, m, outcome, None, c.catchError)
    ensures c.s.defs[id].callback.Factory? ==>
      id in c.s.declared && IsMadeBy(id, c.s.declared[id], reaction, m.exports, m.error, id in c.s.notified)
    ensures c.s.defs[id].callback.Factory? && reaction.outcome.Threw? ==>
      c.s.log != [] && c.s.log[|c.s.log| - 1] == ErrorReported(id)
  {
    hide Core, PassesExports;
    RunningIsBegun(c.s, {}, id);
    PassedIsKnown(c.s, {}, id);
    if c.s.defs[id].callback.Factory? {
      var f :| IsInvoked(c, id, reaction, f, outcome, None, c.catchError) && m == Cleared(f);
      assert IsMade(id, c.s.declared[id], outcome, m.exports, m.error, id in c.s.notified);
    }
  }

  lemma LogIsOnce(s: State)
    requires Inv(s, {})
    ensures OnceOk(s.log)
  {
  }

  /** What a completed module needs in order to be stored. */
  lemma MayBeStored(script: Script, a: Scene, b: Scene, c: Scene, id: nat, reaction: Reaction, m: Module,
      outcome: FactoryOutcome)
    requires Inv(a.s, {id}) && Inv(c.s, {}) && id in a.s.modules && !a.s.modules[id].isComplete
    requires (exists args :: IsBegin(a.s, b.s, id, args)) && IsNext(script, a.s, id, reaction)
    requires IsCompletion(b, c, id, reaction, m, outcome, None, c.catchError)
    requires Leads(b, c, {}) && c.catchError == a.catchError && c.s.stack.Running? && c.s.stack.id == id
    ensures MayEnd(script, c, id, m.exports, m.error)
  {
    hide Inv, Core, IsCompletion, IsNext, Leads, MayEnd, OnceOk, IsMadeBy;
    InvIsCore(a.s, {id});
    InvIsCore(c.s, {});
    CompletionIsMade(b, c, id, reaction, m, outcome);
    NotYetBegun(a.s, {id}, id);
    LogIsOnce(c.s);
    BeginFacts(a.s, b.s, id, a.s.stack);
    CompletionMayEnd(a, b, c, id, reaction, m, outcome, None);
    DeliveredMayEnd(script, a, b, c, id, reaction, m);
  }

  lemma BeginFacts(s: State, t: State, id: nat, below: Stack)
    requires s.stack == below && exists args :: IsBegin(s, t, id, args)
    ensures id in s.modules && t.modules == s.modules[id := s.modules[id].(isComplete := true)]
    ensures t.stack == Running(id, below) && t.dead == s.dead && t.notified == s.notified && t.defs == s.defs
    ensures exists args, callback :: t.log == s.log + [Completing(id, args, callback)]
    ensures forall x :: x in t.modules ==> x in s.modules && t.modules[x].error == s.modules[x].error
  {
  }

  lemma FinishFacts(s: State, t: State, id: nat, m: Module, below: Stack)
    requires s.stack == Running(id, below) && IsFinish(s, t, id, m)
    ensures t.modules == s.modules[id := m] && t.stack == Releasing(id, Waiting(s.inverse, id), below)
    ensures t.dead == s.dead && t.notified == s.notified && t.begun == s.begun && m.isComplete
    ensures exists exports, error :: t.log == s.log + [Completed(id, exports, error)]
  {
  }

  lemma BuryFacts(s: State, t: State, id: nat, below: Stack)
    requires s.stack == Running(id, below) && IsBury(s, t, id)
    ensures t.modules == s.modules && t.stack == below && t.log == s.log + [Unwound(id)]
    ensures t.notified == s.notified && t.begun == s.begun
    ensures CutShort(s.stack) == {}
  {
  }

  lemma ReleasedIsSteady(a: Scene, b: Scene, c: Scene, x: nat)
    requires InState(a, b) && IsRelease(a.s, b.s, x) && Grows(a.s, b.s) && Leads(b, c, {})
    requires x in c.s.modules && (c.s.modules[x].isComplete || b.s.modules[x].unresolved > 0)
    ensures Leads(a, c, {})
  {
    hide Grows;
    GrowsTransitive(a.s, b.s, c.s);
  }

  lemma EndsUpSame(s: State, t: State, u: State, id: nat, deps: seq<Dependency>)
    requires t == s.(nextId := t.nextId)
    ensures EndsUp(t, u, id, deps) <==> EndsUp(s, u, id, deps)
  {
  }

  lemma SelfIsAffected(inverse: Graph, id: nat)
    ensures Affected(inverse, id, id)
  {
  }

  lemma ReportIsFair(script: Script, a: Scene, b: Scene, id: nat)
    requires Fair(script, a) && IsReport(a.s, b.s, id) && b == a.(s := b.s, flying := b.flying) && Legal(script, b)
    ensures Fair(script, b)
  {
    if IsQuiet(script) {
      UninterruptedStays(a.s.log, [ErrorReported(id)]);
    }
    hide Uninterrupted, Legal, IsQuiet;
  }

  /** The walk along the inverse lists under way: those in order have been told, those in queue are next. */
  ghost predicate IsWalk(a: Scene, b: Scene, id: nat, error: Error, order: seq<nat>, queue: seq<nat>, seen: seq<bool>,
      someoneNotified: bool)
  {
    && IsTelling(a, b) && b.s.notified == a.s.notified + (set x | x in order)
    && WaitersIn(a.s.inverse, a.s.modules.Keys, a.s.nextId)
    && |seen| == a.s.nextId && Marked(seen, id)
    && Enlisted(order, queue, seen, a.s.modules.Keys)
    && AllReached(a.s.inverse, id, seen) && Explored(a.s.inverse, order, seen)
    && Told(a.s.modules, b.s.modules, order, error)
    && b.s.log == a.s.log + Notices(order)
    && (someoneNotified <==> SomeErrorback(a.s.modules, order))
  }

  lemma StartWalk(a: Scene, id: nat, error: Error)
    requires id in a.s.modules && id < a.s.nextId && WaitersIn(a.s.inverse, a.s.modules.Keys, a.s.nextId)
    ensures IsWalk(a, a, id, error, [], [id], seq(a.s.nextId, i => false)[id := true], false)
  {
    hide AllReached, Marked, Enlisted, Explored, WaitersIn, Told, SomeErrorback;
    OnlyStart(a.s.inverse, id, a.s.nextId, a.s.modules.Keys);
    NobodyTold(a.s.modules, error);
  }

  lemma WalkFacts(a: Scene, b: Scene, id: nat, error: Error, order: seq<nat>, queue: seq<nat>, seen: seq<bool>,
      someoneNotified: bool)
    requires IsWalk(a, b, id, error, order, queue, seen, someoneNotified) && queue != []
    ensures queue[0] in b.s.modules && b.s.inverse == a.s.inverse && |seen| == a.s.nextId
    ensures Told(a.s.modules, b.s.modules, order, error)
    ensures WaitersIn(a.s.inverse, a.s.modules.Keys, |seen|) && AllReached(a.s.inverse, id, seen)
    ensures Enlisted(order + [queue[0]], queue[1..], seen, a.s.modules.Keys) && Explored(a.s.inverse, order, seen)
  {
    hide AllReached, Marked, Enlisted, Explored, WaitersIn, SomeErrorback;
    QueuedIsDefined(order, queue, seen, a.s.modules.Keys);
    Advance(order, queue, seen, a.s.modules.Keys);
  }

  lemma WalkOn(a: Scene, b: Scene, c: Scene, id: nat, error: Error, order: seq<nat>, queue: seq<nat>, seen: seq<bool>,
      someoneNotified: bool, longer: seq<nat>, marks: seq<bool>, handled: bool)
    requires queue != [] && IsWalk(a, b, id, error, order, queue, seen, someoneNotified) && IsTelling(b, c)
    requires var more := order + [queue[0]];
      && c.s.notified == b.s.notified + {queue[0]} && c.s.log == b.s.log + [DependencyError(queue[0])]
      && Told(a.s.modules, c.s.modules, more, error)
      && (handled || SomeErrorback(a.s.modules, order) <==> SomeErrorback(a.s.modules, more))
      && |marks| == |seen| && (Marked(seen, id) ==> Marked(marks, id)) && AllReached(a.s.inverse, id, marks)
      && Enlisted(more, longer, marks, a.s.modules.Keys) && Explored(a.s.inverse, more, marks)
    ensures IsWalk(a, c, id, error, order + [queue[0]], longer, marks, handled || someoneNotified)
  {
    hide AllReached, Marked, Enlisted, Explored, WaitersIn, SomeErrorback, Told, Notices;
    NoticesAppend(order, queue[0]);
  }

  lemma EndWalk(a: Scene, b: Scene, id: nat, error: Error, order: seq<nat>, seen: seq<bool>, someoneNotified: bool)
    requires IsWalk(a, b, id, error, order, [], seen, someoneNotified)
    ensures IsTelling(a, b) && b.s.notified == a.s.notified + (set x | x in order)
    ensures Distinct(order) && forall x :: x in order <==> Affected(b.s.inverse, id, x)
    ensures Told(a.s.modules, b.s.modules, order, error) && b.s.log == a.s.log + Notices(order)
    ensures someoneNotified <==> SomeErrorback(a.s.modules, order)
  {
    hide AllReached, Marked, Enlisted, Explored, WaitersIn, SomeErrorback, Told, Notices;
    EveryoneTold(a.s.inverse, id, order, seen, a.s.modules.Keys);
  }

  /** Exactly those whom the failure of id concerns have been told. */
  ghost predicate IsToldOf(s: State, t: State, id: nat) {
    forall x :: x in t.notified <==> x in s.notified || Affected(s.inverse, id, x)
  }
}
