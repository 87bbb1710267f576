/** Whole runs of the module manager: all of them, those in which nothing can fail, and two that end badly. */
module LoaderRuns {
  import opened Basics
  import opened Graphs
  import opened LoaderCompletion
  import opened LoaderFacts
  import opened LoaderScenes
  import opened LoaderScripts
  import opened LoaderState
  import opened LoaderSteps
  import opened LoaderTheorems
  import opened ModuleManagers

  lemma FairIsRecorded(script: Script, a: Scene)
    requires Fair(script, a) && Inv(a.s, {})
    ensures a.s.defs == After(a.occurred).defs && HeardOk(a.s, a.missed)
    ensures a.s.defs.Keys == a.s.modules.Keys == a.s.declared.Keys
    ensures forall x :: x in a.s.defs ==> a.s.declared[x] == a.s.defs[x].deps
  {
  }

  // ---------- runs in which nothing can fail ----------

  /** All events that are given to a run, from outside or by its script. */
  ghost function Given(script: Script, events: seq<Event>): multiset<Event> {
    multiset(events) + Pending(script)
  }

  ghost predicate AtMostOneAnonymous(given: multiset<Event>) {
    forall e, f :: e in given && f in given && e.DefineAnonymous? && f.DefineAnonymous? ==> e == f && given[e] == 1
  }

  /** No script fails to load, and no exception comes from foreign code or from a second anonymous definition. */
  ghost predicate IsCalm(script: Script, given: multiset<Event>) {
    && IsPeaceful(script)
    && (AllCatch(script) || AtMostOneAnonymous(given))
    && forall e :: e in given ==> !e.LoadError?
  }

  /** No definition has a dependency on a resource of a plugin. */
  ghost predicate NamesNoPlugin(e: Event) {
    e.Define? || e.DefineAnonymous? ==> forall j :: 0 <= j < |e.deps| ==> !e.deps[j].Plugin?
  }

  lemma TwoAreCounted(events: seq<Event>, i: nat, j: nat)
    requires j < i < |events| && events[i] == events[j]
    ensures multiset(events)[events[i]] >= 2
  {
    assert events == events[..i] + events[i..];
    assert events[j] == events[..i][j] && events[i] == events[i..][0];
  }

  lemma TwoAnonymous(occurred: seq<Event>) returns (j: nat, i: nat)
    requires SecondAnonymous(occurred)
    ensures j < i < |occurred| && occurred[i].DefineAnonymous? && occurred[j].DefineAnonymous?
  {
    i :| 0 <= i < |occurred| && occurred[i].DefineAnonymous? && After(occurred[..i]).anonymous.Some?;
    var before := occurred[..i];
    j := PendingIsFirst(before);
    assert before[j] == occurred[j];
  }

  lemma OneAnonymous(occurred: seq<Event>, given: multiset<Event>)
    requires AtMostOneAnonymous(given) && multiset(occurred) <= given
    ensures !SecondAnonymous(occurred)
  {
    hide SecondAnonymous;
    if SecondAnonymous(occurred) {
      var j, i := TwoAnonymous(occurred);
      assert occurred[i] in multiset(occurred) && occurred[j] in multiset(occurred);
      TwoAreCounted(occurred, i, j);
    }
  }

  /** Only what was given has occurred. */
  lemma OccurredIsGiven(a: Scene, given: multiset<Event>)
    requires Budget(a) == given
    ensures multiset(a.occurred) <= given && forall i :: 0 <= i < |a.occurred| ==> a.occurred[i] in given
  {
    hide Pending;
    var happened := multiset(a.occurred);
    assert forall e :: (happened + a.dropped + Pending(a.left))[e] >= happened[e];
  }

  /** In a run in which nothing can fail no module fails and nothing is cut short. */
  lemma CalmRunsDoNotFail(script: Script, given: multiset<Event>, a: Scene)
    requires Inv(a.s, {}) && Fair(script, a) && Budget(a) == given && IsCalm(script, given)
    ensures a.s.notified == {} && NothingUnwound(a.s.log)
  {
    hide Inv, Core, HeardOk, ThrownOk, MadeOk, FlightOk, Budget, Orderly, AtMostOneAnonymous, SecondAnonymous;
    hide AllCatch, After, IsLeft;
    OccurredIsGiven(a, given);
    if AtMostOneAnonymous(given) {
      OneAnonymous(a.occurred, given);
    }
    DeadIsUnwound(a.s);
  }

  lemma DeadIsUnwound(s: State)
    requires Inv(s, {})
    ensures s.dead == Idle <==> NothingUnwound(s.log)
  {
  }

  lemma PluginsAreNamed(script: Script, given: multiset<Event>, a: Scene)
    requires Inv(a.s, {}) && Fair(script, a) && Budget(a) == given && forall e :: e in given ==> NamesNoPlugin(e)
    ensures NoPlugins(a.s.declared)
  {
    hide Inv, Fair, Budget, NamesNoPlugin, After, HeardOk;
    FairIsRecorded(script, a);
    OccurredIsGiven(a, given);
    forall x, j | x in a.s.declared && 0 <= j < |a.s.declared[x]| ensures !a.s.declared[x][j].Plugin? {
      var i := DefinitionHasSource(a.occurred, x);
      if a.occurred[i].LoadOk? {
        var k: nat :| IsNamed(a.occurred, k, i) && k < i && IsAnonymous(a.occurred[k], a.s.defs[x]);
        NoPluginIn(a.occurred[k], j);
      } else if a.occurred[i].Define? {
        NoPluginIn(a.occurred[i], j);
      }
    }
  }

  lemma NoPluginIn(e: Event, j: nat)
    requires NamesNoPlugin(e) && (e.Define? || e.DefineAnonymous?) && j < |e.deps|
    ensures !e.deps[j].Plugin?
  {
  }

  /**
   If nothing that was given can fail or names a plugin, everything is complete as soon as all that was asked for has
   been defined, cycles or not.
   */
  lemma AllCompleteWhenAllDefined(script: Script, given: multiset<Event>, a: Scene)
    requires Inv(a.s, {}) && Fair(script, a) && a.s.stack == Idle && Budget(a) == given
    requires IsCalm(script, given) && forall e :: e in given ==> NamesNoPlugin(e)
    requires a.s.known <= a.s.modules.Keys
    ensures forall x :: x in a.s.modules ==> a.s.modules[x].isComplete && x in a.s.ended
  {
    hide Inv, Fair, Budget, IsCalm, NamesNoPlugin, HeardOk, NoPlugins, NothingUnwound;
    CalmRunsDoNotFail(script, given, a);
    PluginsAreNamed(script, given, a);
    FairIsRecorded(script, a);
    CompleteUnlessFailed(a);
  }

  // ---------- every run ----------

  /**
   Any run: a fresh manager, any outermost events, any script of foreign calls. Whatever happens has been asked for, and
   decides in its order which definition each id gets; each call to a loader, a plugin or a factory takes the next place
   in the script.
   */
  method Run(script: Script, catchError: bool, events: seq<Event>) returns (manager: ModuleManager)
    ensures fresh(manager) && Inv(manager.S(), {}) && manager.track.stack == Idle
    ensures multiset(manager.track.occurred) + manager.track.dropped + Pending(manager.left)
      == multiset(events) + Pending(script)
    ensures AllCatch(script) ==> manager.track.dropped == multiset{}
    ensures Pending(script) == multiset{} ==> multiset(manager.track.occurred) <= multiset(events)
    ensures script == Script([], []) ==> manager.track.occurred == events
    ensures manager.track.defs == After(manager.track.occurred).defs
    ensures IsLeft(script, manager.track.log, manager.left)
    ensures HeardOk(manager.S(), manager.track.missed)
    ensures forall i :: 0 <= i < |events| ==> HasHappened(manager.S(), events[i])
    ensures forall x :: x in manager.modules && x !in manager.track.notified ==>
      (!manager.modules[x].isComplete <==> Stuck(manager.Sc(), x))
    ensures Acyclic(manager.inverse)
    ensures forall x :: Completions(manager.track.log, x) == if x in manager.track.begun then 1 else 0
    ensures IsQuiet(script) ==> Uninterrupted(manager.track.log)
    ensures manager.anonymous == After(manager.track.occurred).anonymous
    ensures forall k :: 0 <= k < |manager.track.log| && manager.track.log[k].Unwound? ==>
      k + 1 < |manager.track.log| && IsPassedOn(manager.track.log[k + 1])
    ensures forall x :: x in manager.track.ended ==> IsAsDefined(script, manager.S(), x)
    ensures !IsDisturbed(script, manager.track.occurred) ==> NothingUnwound(manager.track.log)
    ensures IsUnfailing(script, manager.Sc()) ==> manager.track.notified == {}
    ensures IsCalm(script, Given(script, events)) ==>
      manager.track.notified == {} && NothingUnwound(manager.track.log)
    ensures (&& IsCalm(script, Given(script, events)) && (forall e :: e in Given(script, events) ==> NamesNoPlugin(e))
             && manager.known <= manager.modules.Keys) ==>
      forall x :: x in manager.modules ==> manager.modules[x].isComplete
  {
    hide IsDisturbed, IsUnfailing, NothingUnwound, IsCalm, NamesNoPlugin, AllCatch, IsAsDefined, IsPassedOn;
    hide Inv, Fair, Leads, Stuck, Completions, IsQuiet, HasHappened, After, IsLeft, Acyclic, Budget, Pending, HeardOk;
    manager := new ModuleManager(script, catchError);
    ghost var a := manager.Sc();
    var thrown := manager.Happen(events, true);
    ghost var b := manager.Sc();
    LeadsGrows(a, b, {});
    FairFacts(script, b);
    AllAccountedFor(b, events, script);
    ConsequencesOf(b);
    MadeAndCalm(script, events, b);
  }

  lemma MadeAndCalm(script: Script, events: seq<Event>, a: Scene)
    requires Inv(a.s, {}) && Fair(script, a) && a.s.stack == Idle && Budget(a) == Given(script, events)
    ensures forall x :: x in a.s.ended ==> IsAsDefined(script, a.s, x)
    ensures IsCalm(script, Given(script, events)) ==> a.s.notified == {} && NothingUnwound(a.s.log)
    ensures (&& IsCalm(script, Given(script, events)) && (forall e :: e in Given(script, events) ==> NamesNoPlugin(e))
             && a.s.known <= a.s.modules.Keys) ==>
      forall x :: x in a.s.modules ==> a.s.modules[x].isComplete
  {
    hide Inv, Fair, NothingUnwound, IsCalm, NamesNoPlugin, IsAsDefined, Budget, Given;
    forall x | x in a.s.ended ensures IsAsDefined(script, a.s, x) {
      EndedIsAsDefined(script, a, x);
    }
    if IsCalm(script, Given(script, events)) {
      CalmRunsDoNotFail(script, Given(script, events), a);
      if a.s.known <= a.s.modules.Keys && forall e :: e in Given(script, events) ==> NamesNoPlugin(e) {
        AllCompleteWhenAllDefined(script, Given(script, events), a);
      }
    }
  }

  lemma FairFacts(script: Script, a: Scene)
    requires Fair(script, a) && Inv(a.s, {})
    ensures a.s.defs == After(a.occurred).defs && IsLeft(script, a.s.log, a.left) && HeardOk(a.s, a.missed)
    ensures IsQuiet(script) ==> Uninterrupted(a.s.log)
    ensures AllCatch(script) ==> a.dropped == multiset{}
    ensures a.anonymous == After(a.occurred).anonymous
    ensures !a.flying ==> forall k :: 0 <= k < |a.s.log| && a.s.log[k].Unwound? ==>
      k + 1 < |a.s.log| && IsPassedOn(a.s.log[k + 1])
    ensures !IsDisturbed(script, a.occurred) ==> NothingUnwound(a.s.log)
    ensures IsUnfailing(script, a) ==> a.s.notified == {}
  {
    DeadIsUnwound(a.s);
    hide Inv, IsDisturbed, AllCatch;
  }

  lemma AllAccountedFor(b: Scene, events: seq<Event>, script: Script)
    requires Budget(b) == Pending(script) + multiset(events)
    ensures multiset(b.occurred) + b.dropped + Pending(b.left) == multiset(events) + Pending(script)
    ensures Pending(script) == multiset{} ==> multiset(b.occurred) <= multiset(events)
  {
    hide Pending;
    var happened := multiset(b.occurred);
    assert forall e :: (happened + b.dropped + Pending(b.left))[e] >= happened[e];
  }

  lemma ConsequencesOf(a: Scene)
    requires Inv(a.s, {}) && HeardOk(a.s, a.missed) && a.s.stack == Idle
    ensures forall x :: x in a.s.modules && x !in a.s.notified ==> (!a.s.modules[x].isComplete <==> Stuck(a, x))
    ensures Acyclic(a.s.inverse)
    ensures forall x :: Completions(a.s.log, x) == if x in a.s.begun then 1 else 0
  {
    hide Inv, Stuck, HeardOk, Completions;
    var s := a.s;
    forall x | x in s.modules && x !in s.notified ensures !s.modules[x].isComplete <==> Stuck(a, x) {
      NoModuleIsStuck(a, x);
    }
    NobodyWaitsForItself(s);
    forall x ensures Completions(s.log, x) == if x in s.begun then 1 else 0 {
      CompletedAtMostOnce(s, x);
    }
  }

  // ---------- a failure that is overlooked ----------

  lemma NotDoomed(id: nat, deps: seq<Dependency>)
    ensures !Doomed(map[], id, deps)
  {
  }

  const WAITER: Definition := Definition([Regular(4)], Factory, false)
  const FAILING: Definition := Definition([Regular(5)], Factory, false)
  const FIRST: Event := Define(3, [Regular(4)], Factory, false)
  const SECOND: Event := LoadError(5, 0)
  const THIRD: Event := Define(4, [Regular(5)], Factory, false)

  lemma TablesOnTheWay()
    ensures After([FIRST]).defs == map[3 := WAITER]
    ensures After([FIRST, SECOND]).defs == map[3 := WAITER, 5 := PLACEHOLDER]
    ensures After([FIRST, SECOND, THIRD]).defs == map[3 := WAITER, 5 := PLACEHOLDER, 4 := FAILING]
  {
    var one, two, three := [FIRST], [FIRST, SECOND], [FIRST, SECOND, THIRD];
    assert one[..0] == [] && two[..1] == one && three[..2] == two;
    assert After(one) == Effect(After([]), FIRST);
    assert After(two) == Effect(After(one), SECOND);
    assert After(three) == Effect(After(two), THIRD);
  }

  /** Nobody waits for 5 when it fails to load. */
  lemma NobodyWaitsForFive(s: State, x: nat)
    requires ListsOk(s) && s.declared.Keys == {3} && s.declared[3] == [Regular(4)]
    ensures !Reaches(s.inverse, 5, x)
  {
    assert !DependsOn(s.declared[3], 5);
    forall y: nat ensures y !in Waiting(s.inverse, 5) {
      assert y in s.declared ==> y == 3;
    }
    if Reaches(s.inverse, 5, x) {
      var y := FirstStep(s.inverse, 5, x);
    }
  }

  lemma FailedFails(s: State, id: nat)
    requires StatusOk(s) && 5 in s.notified && id != 5
    ensures Doomed(s.modules, id, [Regular(5)])
  {
    assert FailsBy(s.modules, [Regular(5)][0]);
  }

  /** All that is known when 3 and 4 are defined and 5 has failed. */
  ghost predicate IsEndOfStory(s: State) {
    && s.stack == Idle && s.dead == Idle
    && s.declared.Keys == {3, 5, 4}
    && s.declared[3] == [Regular(4)] && s.declared[5] == [] && s.declared[4] == [Regular(5)]
    && 4 in s.notified && 4 !in s.begun && 3 !in s.notified
  }

  lemma StillWaiting(a: Scene)
    requires Inv(a.s, {}) && HeardOk(a.s, a.missed) && IsEndOfStory(a.s)
    ensures 3 in a.s.modules && !a.s.modules[3].isComplete && (4, 3) in a.missed
  {
    var s := a.s;
    InvIsCore(s, {});
    CoreClauses(s);
    hide Inv, Core;
    NothingLeadsBack(s);
    ThreeWaits(s);
    hide SettledOk, BrokenOk, ListsOk, StatusOk, IsEndOfStory;
    WaiterHasNotBegun(s, 4, 3);
    assert 3 !in s.notified && 4 in s.notified by { EndOfStory(s); }
    UnbegunIsIncomplete(s, 3);
  }

  lemma EndOfStory(s: State)
    requires IsEndOfStory(s)
    ensures 3 !in s.notified && 4 in s.notified
  {
  }

  lemma CoreClauses(s: State)
    requires Core(s, {})
    ensures SettledOk(s) && BrokenOk(s) && ListsOk(s) && StatusOk(s)
  {
  }

  lemma ThreeWaits(s: State)
    requires SettledOk(s) && s.stack == Idle && s.dead == Idle && 3 in s.declared && s.declared[3] == [Regular(4)]
    requires 3 !in s.notified && 4 !in s.begun && (3, 4) !in s.broken
    ensures 3 in Waiting(s.inverse, 4)
  {
    assert IsVisited(s, 3, 0);
    assert Settled(s, 3, s.declared[3][0].Id());
  }

  lemma NothingLeadsBack(s: State)
    requires BrokenOk(s) && IsEndOfStory(s)
    ensures (3, 4) !in s.broken
  {
    var g := DeclaredGraph(s.declared);
    assert forall y :: Edge(g, 4, y) ==> y == 5;
    assert forall y :: !Edge(g, 5, y);
    hide DeclaredGraph, Edge, HasReport, ReportsOk;
    if Reaches(g, 4, 3) {
      var y := FirstStep(g, 4, 3);
      assert Reaches(g, 5, 3);
      var z := FirstStep(g, 5, 3);
    }
  }

  /** A small run in which it happens: 3 waits for 4, which fails because of 5, and is never told. */
  method OverlookedFailure() returns (manager: ModuleManager)
    ensures fresh(manager) && Inv(manager.S(), {}) && manager.track.stack == Idle
    ensures manager.track.occurred == [FIRST, SECOND, THIRD]
    ensures 4 in manager.track.notified && 3 !in manager.track.notified
    ensures 3 in manager.modules && !manager.modules[3].isComplete && (4, 3) in manager.track.missed
  {
    hide Inv, Leads, Budget, Fair, After, Doomed, Reaches, HeardOk, IsToldOf, EndsUp;
    manager := new ModuleManager(Script([], []), true);
    ghost var script := manager.script;
    ghost var a := manager.Sc();
    var thrown := manager.HappenOne(FIRST);
    ghost var b := manager.Sc();
    LeadsGrows(a, b, {});
    thrown := manager.HappenOne(SECOND);
    ghost var c := manager.Sc();
    LeadsGrows(b, c, {});
    SecondStep(script, a, b, c);
    thrown := manager.HappenOne(THIRD);
    LeadsGrows(c, manager.Sc(), {});
    ThirdStep(script, c, manager.Sc());
  }

  /** 3 has not failed, and is not concerned by the failure of 5. */
  lemma SecondStep(script: Script, a: Scene, b: Scene, c: Scene)
    requires a.s.modules == map[] && a.s.notified == {} && EndsUp(a.s, b.s, 3, [Regular(4)])
    requires Inv(b.s, {}) && Fair(script, b) && b.occurred == [FIRST] && IsToldOf(b.s, c.s, 5)
    requires Inv(c.s, {}) && Fair(script, c) && c.occurred == [FIRST, SECOND]
    ensures c.s.notified == {5} && 4 !in c.s.modules && Doomed(c.s.modules, 4, [Regular(5)])
  {
    hide Inv, Fair, After, Reaches, Doomed;
    AfterFirst(script, b);
    NotDoomed(3, [Regular(4)]);
    AfterSecond(script, c);
    SelfIsAffected(b.s.inverse, 5);
    assert b.s.notified == {};
    FailedAfterSecond(c.s);
  }

  lemma AfterFirst(script: Script, b: Scene)
    requires Inv(b.s, {}) && Fair(script, b) && b.occurred == [FIRST]
    ensures forall x :: !Reaches(b.s.inverse, 5, x)
  {
    hide Inv, Core, Fair, After, Reaches;
    TablesOnTheWay();
    FairIsRecorded(script, b);
    InvIsCore(b.s, {});
    CoreClauses(b.s);
    hide StatusOk, SettledOk, BrokenOk, ListsOk;
    assert 3 in b.s.defs;
    forall x ensures !Reaches(b.s.inverse, 5, x) {
      NobodyWaitsForFive(b.s, x);
    }
  }

  lemma AfterSecond(script: Script, c: Scene)
    requires Inv(c.s, {}) && Fair(script, c) && c.occurred == [FIRST, SECOND]
    ensures 4 !in c.s.modules
  {
    hide Inv, Fair, After;
    TablesOnTheWay();
    FairIsRecorded(script, c);
  }

  lemma FailedAfterSecond(s: State)
    requires Inv(s, {}) && 5 in s.notified
    ensures Doomed(s.modules, 4, [Regular(5)])
  {
    hide Doomed;
    InvIsCore(s, {});
    CoreClauses(s);
    hide Inv, Core, StatusOk, SettledOk, BrokenOk, ListsOk;
    FailedFails(s, 4);
  }

  lemma ThirdStep(script: Script, c: Scene, d: Scene)
    requires c.s.notified == {5} && Doomed(c.s.modules, 4, [Regular(5)]) && EndsUp(c.s, d.s, 4, [Regular(5)])
    requires Inv(d.s, {}) && Fair(script, d) && d.occurred == [FIRST, SECOND, THIRD]
    requires d.s.stack == Idle && d.s.dead == Idle
    ensures 4 in d.s.notified && 3 !in d.s.notified
    ensures 3 in d.s.modules && !d.s.modules[3].isComplete && (4, 3) in d.missed
  {
    hide Inv, Fair, After, Doomed, HeardOk;
    TablesOnTheWay();
    FairIsRecorded(script, d);
    assert 3 in d.s.defs && 4 in d.s.defs && 5 in d.s.defs;
    StillWaiting(d);
  }

  // ---------- a factory that throws ----------

  const THROWING: Script := Script([], [Reaction([], true, Threw(7))])
  const SUPPLIER: Definition := Definition([], Factory, false)
  const LAST: Event := Define(4, [], Factory, false)

  /** As long as 4 depends on nothing, no dependency path leads from it to 3. */
  lemma FourLeadsNowhere(declared: map<nat, seq<Dependency>>)
    requires 4 in declared ==> declared[4] == []
    ensures !Reaches(DeclaredGraph(declared), 4, 3)
  {
    var g := DeclaredGraph(declared);
    if Reaches(g, 4, 3) {
      var y := FirstStep(g, 4, 3);
    }
  }

  /** 3 depends on 4, which depends on nothing, and there are no others. */
  ghost predicate IsPair(defs: map<nat, Definition>) {
    defs == map[3 := WAITER] || defs == map[3 := WAITER, 4 := SUPPLIER]
  }

  lemma PairOnTheWay()
    ensures After([FIRST]).defs == map[3 := WAITER]
    ensures After([FIRST, LAST]).defs == map[3 := WAITER, 4 := SUPPLIER]
  {
    var one, two := [FIRST], [FIRST, LAST];
    assert one[..0] == [] && two[..1] == one;
    assert After(one) == Effect(After([]), FIRST);
    assert After(two) == Effect(After(one), LAST);
  }

  /** Everything has occurred, in the given order, and nobody has been told of a failure. */
  lemma AllHaveOccurred(a: Scene, events: seq<Event>)
    requires Fair(THROWING, a) && Budget(a) == multiset(events) && events <= a.occurred
    ensures a.occurred == events
    ensures NoLoadError(events) && !a.catchError ==> a.s.notified == {}
  {
    NothingIsPending(a);
    hide Fair, Pending, NoLoadError, IsDisturbed;
    assert multiset(a.occurred) == multiset(events);
    assert |multiset(a.occurred)| == |a.occurred| && |multiset(events)| == |events|;
  }

  lemma NothingIsPending(a: Scene)
    requires Fair(THROWING, a)
    ensures Pending(a.left) == multiset{} && a.dropped == multiset{}
    ensures NoLoadError(a.occurred) && !a.catchError ==> a.s.notified == {}
  {
    hide HeardOk, ThrownOk, MadeOk, FlightOk, Orderly, NoLoadError, IsDisturbed, After, Requests, Runs;
    assert a.left.loads == [] && (a.left.factories == [] || a.left.factories == THROWING.factories);
    assert AllCatch(THROWING);
    assert FactoryEvents(a.left.factories) == multiset{};
  }

  lemma FourBeginsFirst(s: State, k: nat)
    requires Inv(s, {}) && IsPair(s.defs) && BeginsAt(s.log, k, 3)
    ensures BegunBefore(s.log, k, 4)
  {
    hide Inv, BegunBefore, Reaches, DeclaredGraph, HasReport;
    PairIsDeclared(s);
    FourLeadsNowhere(s.declared);
    DependenciesComeFirst(s, k, 0);
  }

  lemma PairIsDeclared(s: State)
    requires Inv(s, {}) && IsPair(s.defs)
    ensures s.declared.Keys == s.defs.Keys == s.modules.Keys
    ensures s.declared[3] == [Regular(4)] && (4 in s.declared ==> s.declared[4] == [])
    ensures s.begun <= s.modules.Keys && s.notified <= s.modules.Keys
    ensures (3, 4) !in s.broken
  {
    hide Inv, Reaches, DeclaredGraph;
    RecordedAsDefined(s);
    assert 3 in s.defs;
    FourLeadsNowhere(s.declared);
    DroppedLeadsBack(s, 3, 4);
  }

  lemma RecordedAsDefined(s: State)
    requires Inv(s, {})
    ensures s.declared.Keys == s.defs.Keys == s.modules.Keys
    ensures forall x :: x in s.defs ==> s.declared[x] == s.defs[x].deps
    ensures s.begun <= s.modules.Keys && s.notified <= s.modules.Keys
  {
  }

  lemma DroppedLeadsBack(s: State, x: nat, d: nat)
    requires Inv(s, {})
    ensures (x, d) in s.broken ==> Reaches(DeclaredGraph(s.declared), d, x)
  {
  }

  lemma {:induction false} NeverRun(log: seq<Entry>)
    requires forall k :: 0 <= k < |log| ==> !CallsFactory(log[k])
    ensures Runs(log) == 0
  {
    if |log| == 0 {
    } else {
      NeverRun(log[..|log| - 1]);
    }
  }

  lemma BeginningIsLogged(s: State, k: nat)
    requires Inv(s, {}) && k < |s.log| && s.log[k].Completing?
    ensures BeginsAt(s.log, k, s.log[k].id) && s.log[k].id in s.begun && s.log[k].id in s.defs
    ensures s.log[k].callback == s.defs[s.log[k].id].callback
  {
    assert BeginsAt(s.log, k, s.log[k].id);
  }

  lemma FirstBeginning(s: State, x: nat) returns (k: nat)
    requires Inv(s, {}) && x in s.begun
    ensures BeginsAt(s.log, k, x) && forall i :: BeginsAt(s.log, i, x) ==> i == k
  {
    HistoryHolds(s);
    k :| BeginsAt(s.log, k, x);
  }

  /** Before 4 is defined nothing can begin, and so 3 waits for it. */
  lemma ThreeIsWaiting(a: Scene)
    requires Inv(a.s, {}) && Fair(THROWING, a) && a.s.defs == map[3 := WAITER] && a.s.notified == {}
    ensures a.left == THROWING
    ensures a.s.stack == Idle && a.s.dead == Idle ==> 3 in Waiting(a.s.inverse, 4)
  {
    var s := a.s;
    hide Inv, Core, Orderly, HeardOk, CalmOk, ThrownOk, MadeOk, FlightOk, After;
    PairIsDeclared(s);
    assert 3 !in s.begun by {
      if 3 in s.begun {
        var k := FirstBeginning(s, 3);
        FourBeginsFirst(s, k);
        var i :| i < k && BeginsAt(s.log, i, 4);
        BeginningIsLogged(s, i);
      }
    }
    forall k | 0 <= k < |s.log| ensures !CallsFactory(s.log[k]) {
      if s.log[k].Completing? {
        BeginningIsLogged(s, k);
      }
    }
    NeverRun(s.log);
    if s.stack == Idle && s.dead == Idle {
      InvIsCore(s, {});
      CoreClauses(s);
      hide StatusOk, BrokenOk, ListsOk;
      ThreeWaits(s);
    }
  }

  /** The factory of 4 is the first one that is called. */
  lemma FourIsCalledFirst(s: State, k: nat)
    requires Inv(s, {}) && IsPair(s.defs) && BeginsAt(s.log, k, 4)
    ensures CallsFactory(s.log[k]) && Runs(s.log[..k]) == 0
  {
    hide Inv, BeginsAt;
    BeginsInside(s.log, k, 4);
    BeginningIsLogged(s, k);
    var first := FirstBeginning(s, 4);
    forall i | 0 <= i < k ensures !CallsFactory(s.log[..k][i]) {
      if s.log[i].Completing? {
        BeginningIsLogged(s, i);
        if s.log[i].id == 3 {
          FourBeginsFirst(s, i);
        }
      }
    }
    NeverRun(s.log[..k]);
  }

  lemma FourNeverEnds(a: Scene)
    requires Inv(a.s, {}) && Fair(THROWING, a) && IsPair(a.s.defs) && 4 in a.s.begun && !a.catchError
    ensures 4 !in a.s.ended
  {
    hide Inv, Orderly, HeardOk, CalmOk, IsLeft, After;
    var k := FirstBeginning(a.s, 4);
    FourIsCalledFirst(a.s, k);
    assert IsEscape(THROWING, a.catchError, 0);
  }

  /** A small run in which it happens: the factory of 4 throws, and 3 waits for ever, although 4 counts as complete. */
  method ThrownFactory() returns (manager: ModuleManager)
    ensures fresh(manager) && Inv(manager.S(), {}) && manager.track.stack == Idle
    ensures manager.track.occurred == [FIRST, LAST] && manager.track.notified == {}
    ensures 4 in manager.modules && manager.modules[4].isComplete
    ensures 3 in manager.modules && !manager.modules[3].isComplete && WaitsForThrown(manager.S(), 3)
  {
    hide Inv, Leads, Budget, Fair, After, Doomed, Reaches, HeardOk, IsToldOf, EndsUp, WaitsForThrown;
    manager := new ModuleManager(THROWING, false);
    ghost var a := manager.Sc();
    var thrown := manager.HappenOne(FIRST);
    ghost var b := manager.Sc();
    FirstDefined(b);
    thrown := manager.HappenOne(LAST);
    LastDefined(b, manager.Sc());
  }

  lemma FirstDefined(b: Scene)
    requires Inv(b.s, {}) && Fair(THROWING, b) && Budget(b) == multiset{FIRST} && [FIRST] <= b.occurred && !b.catchError
    ensures b.occurred == [FIRST] && b.s.notified == {} && b.left == THROWING && b.s.modules.Keys == {3}
    ensures b.s.stack == Idle && b.s.dead == Idle ==> 3 in Waiting(b.s.inverse, 4)
  {
    hide Inv, Fair, Budget, After, HeardOk;
    assert multiset([FIRST]) == multiset{FIRST};
    AllHaveOccurred(b, [FIRST]);
    PairOnTheWay();
    FairIsRecorded(THROWING, b);
    ThreeIsWaiting(b);
  }

  lemma LastDefined(b: Scene, c: Scene)
    requires b.occurred == [FIRST] && 3 in Waiting(b.s.inverse, 4) && Leads(b, c, {}) && c.s.stack == Idle
    requires Inv(c.s, {}) && Fair(THROWING, c) && Budget(c) == multiset{FIRST, LAST} && [FIRST, LAST] <= c.occurred
    requires !c.catchError && 4 in c.s.modules && c.s.modules[4].isComplete
    ensures c.occurred == [FIRST, LAST] && c.s.notified == {}
    ensures 3 in c.s.modules && !c.s.modules[3].isComplete && WaitsForThrown(c.s, 3)
  {
    hide Inv, Core, Fair, Budget, After, HeardOk, Grows, Steady, NewBreaks, Reaches;
    assert multiset([FIRST, LAST]) == multiset{FIRST, LAST};
    AllHaveOccurred(c, [FIRST, LAST]);
    PairOnTheWay();
    FairIsRecorded(THROWING, c);
    InvIsCore(c.s, {});
    ModuleFacts(c.s, {}, 4);
    FourNeverEnds(c);
    assert 3 in Waiting(c.s.inverse, 4);
    WaitedForHasNotEnded(c.s, 4, 3);
    WaiterHasNotBegun(c.s, 4, 3);
    UnbegunIsIncomplete(c.s, 3);
    assert Edge(c.s.inverse, 4, 3);
    EdgeReaches(c.s.inverse, 4, 3);
  }
}
