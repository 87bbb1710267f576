/**
 The AMD module manager: modules arrive in any order, wait for one another through
 counters and inverse dependency lists, and are completed as soon as nothing is owed.
 */
module ModuleManagers {
  import opened Basics
  import opened Graphs
  import opened LoaderFacts
  import opened LoaderState
  import opened LoaderSteps
  import opened LoaderCompletion
  import opened LoaderScripts
  import opened LoaderScenes
  import opened PathSearch

  /** Puts in the queue whoever waits for element and has not been there yet. */
  method EnqueueWaiters(inverse: map<nat, seq<nat>>, id: nat, element: nat, ghost order: seq<nat>, queue: seq<nat>,
      seen: seq<bool>, ghost keys: set<nat>) returns (longer: seq<nat>, marks: seq<bool>)
    requires WaitersIn(inverse, keys, |seen|) && AllReached(inverse, id, seen)
    requires Enlisted(order + [element], queue, seen, keys) && Explored(inverse, order, seen)
    ensures |marks| == |seen| && (Marked(seen, id) ==> Marked(marks, id))
    ensures Enlisted(order + [element], longer, marks, keys) && Explored(inverse, order + [element], marks)
    ensures AllReached(inverse, id, marks)
    ensures Unmarked(marks) + |longer| == Unmarked(seen) + |queue|
  {
    hide Distinct, Reaches, WaitersIn;
    var inverseDeps := Waiting(inverse, element);
    ghost var told := order + [element];
    assert Marked(seen, told[|order|]);
    longer, marks := queue, seen;
    var i := 0;
    while i < |inverseDeps|
      invariant 0 <= i <= |inverseDeps|
      invariant |marks| == |seen| && forall x :: Marked(seen, x) ==> Marked(marks, x)
      invariant forall j :: 0 <= j < i ==> Marked(marks, inverseDeps[j])
      invariant Enlisted(told, longer, marks, keys) && AllReached(inverse, id, marks)
      invariant Unmarked(marks) + |longer| == Unmarked(seen) + |queue|
    {
      var inverseDep := inverseDeps[i];
      assert inverseDep in Waiting(inverse, element);
      WaiterIn(inverse, keys, |seen|, element, inverseDep);
      assert Edge(inverse, element, inverseDep);
      StepFrom(inverse, id, element, inverseDep);
      if !marks[inverseDep] {
        assert !Marked(marks, inverseDep);
        MarkOne(marks, inverseDep);
        AddDistinct(told + longer, inverseDep);
        assert told + (longer + [inverseDep]) == (told + longer) + [inverseDep];
        longer := longer + [inverseDep];
        marks := marks[inverseDep := true];
      }
      i := i + 1;
    }
  }

  class ModuleManager {
    /** The setting catchError: factories run inside a try block. */
    const catchError: bool
    var nextId: nat
    var modules: map<nat, Module>
    var known: set<nat>
    var inverse: map<nat, seq<nat>>
    var inversePlugin: map<nat, seq<Dependency>>
    var hasCycle: bool
    var anonymous: Option<AnonymousCall>
    var reports: seq<seq<nat>>
    /** What is left of the script. */
    var left: Script

    ghost const script: Script
    /** What the specification keeps account of. */
    ghost var track: Track

    ghost function S(): State
      reads this
    {
      State(nextId, modules, known, inverse, inversePlugin, hasCycle, reports, track.stack, track.dead, track.log,
            track.defs, track.declared, track.begun, track.ended, track.notified, track.broken)
    }

    ghost function Sc(): Scene
      reads this
    {
      Scene(S(), anonymous, left, track.occurred, track.dropped, track.missed, catchError,
            track.flying)
    }

    constructor (script: Script, catchError: bool)
      ensures Inv(S(), {}) && Fair(script, Sc()) && Budget(Sc()) == Pending(script)
      ensures track.stack == Idle && modules == map[] && track.log == [] && !hasCycle && track.dead == Idle
      ensures this.script == script && this.catchError == catchError
      ensures left == script && track.occurred == [] && track.dropped == multiset{}
      ensures track.notified == {} && track.missed == {} && !track.flying
    {
      this.catchError, this.script := catchError, script;
      nextId, modules, known, inverse, inversePlugin, hasCycle := 3, map[], {}, map[], map[], false;
      anonymous, reports, left := None, [], script;
      track := Track(Idle, Idle, [], map[], map[], {}, {}, {}, {}, [], multiset{}, {}, false);
      new;
      hide Inv, Fair, Budget, Pending;
      EmptyIsOk(S());
      EmptyIsFair(script, Sc());
    }

    /** getModuleId: an id is handed out at its first mention. */
    method Intern(id: nat)
      requires Inv(S(), {})
      modifies `nextId
      ensures Inv(S(), {}) && IsInnerStep(script, old(Sc()), Sc())
      ensures nextId == if id < old(nextId) then old(nextId) else id + 1
    {
      hide Inv, Grows, Fair, FairFor, Leads, Budget;
      ghost var a := Sc();
      if id >= nextId {
        nextId := id + 1;
      }
      InternKeeps(a.s, S(), {});
      InnerStep(script, a, Sc(), {});
    }

    method InternAll(deps: seq<Dependency>)
      requires Inv(S(), {})
      modifies `nextId
      ensures Inv(S(), {}) && IsInnerStep(script, old(Sc()), Sc()) && nextId >= old(nextId)
      ensures forall j :: 0 <= j < |deps| ==> deps[j].Id() < nextId
    {
      hide Inv, Core, Grows, IsInnerStep;
      InnerReflexive(script, Sc());
      var i := 0;
      while i < |deps|
        invariant 0 <= i <= |deps|
        invariant Inv(S(), {}) && IsInnerStep(script, old(Sc()), Sc()) && nextId >= old(nextId)
        invariant forall j :: 0 <= j < i ==> deps[j].Id() < nextId
      {
        ghost var b := Sc();
        Intern(deps[i].Id());
        InnerTransitive(script, old(Sc()), b, Sc());
        i := i + 1;
      }
    }

    /** Creates and stores a module, then resolves its dependencies at once; a second definition is ignored. */
    method DefineModule(id: nat, deps: seq<Dependency>, callback: Callback, hasErrorback: bool)
        returns (thrown: Option<nat>)
      requires Inv(S(), {})
      requires !track.flying
      requires var def := Definition(deps, callback, hasErrorback);
        FairFor(script, Sc(), WithDefinition(Tables(track.defs, anonymous), id, def))
      modifies this
      ensures Inv(S(), {}) && Fair(script, Sc()) && track.stack == old(track.stack)
      ensures Leads(old(Sc()), Sc(), {}) && Budget(Sc()) == Budget(old(Sc()))
      ensures id in modules
      ensures id in old(modules) ==>
        thrown.None? && S() == old(S()).(nextId := nextId) && Sc() == old(Sc()).(s := S())
      ensures id !in old(modules) ==>
        && id in track.defs && track.defs[id] == Definition(deps, callback, hasErrorback)
        && (deps == [] ==> modules[id].isComplete)
      ensures left.Size() == old(left.Size()) ==>
        && thrown.None? && track.dead == old(track.dead) && track.occurred == old(track.occurred)
        && (id !in old(modules) ==> EndsUp(old(S()), S(), id, deps))
      ensures Excused(script, Sc(), thrown)
      decreases left.Size(), 7, 1
    {
      hide Inv, Core, Grows, Leads, Fair, FairFor, After, IsLeft, Budget, EndsUp, Doomed, IsDisturbed, WithDefinition;
      ghost var a := Sc();
      var def := Definition(deps, callback, hasErrorback);
      InvIsCore(S(), {});
      DefinedIsStored(S(), {});
      Intern(id);
      if id in modules {
        KnownDefinition(script, Sc(), id, def);
        return None;
      }
      ghost var c := Sc();
      InternAll(deps);
      LeadsTransitive(a, c, Sc(), {});
      ghost var b := Sc();
      thrown := DefineNew(id, def);
      LeadsTransitive(a, b, Sc(), {});
      EndsUpSame(a.s, b.s, S(), id, deps);
    }

    method DefineNew(id: nat, def: Definition) returns (thrown: Option<nat>)
      requires Inv(S(), {}) && id !in modules && id < nextId
      requires !track.flying
      requires FairFor(script, Sc(), WithDefinition(Tables(track.defs, anonymous), id, def))
      requires forall j :: 0 <= j < |def.deps| ==> def.deps[j].Id() < nextId
      modifies this
      ensures Inv(S(), {}) && Fair(script, Sc()) && track.stack == old(track.stack)
      ensures Leads(old(Sc()), Sc(), {}) && Budget(Sc()) == Budget(old(Sc()))
      ensures id in modules && id in track.defs && track.defs[id] == def && (def.deps == [] ==> modules[id].isComplete)
      ensures left.Size() == old(left.Size()) ==>
        && thrown.None? && track.dead == old(track.dead) && track.occurred == old(track.occurred)
        && EndsUp(old(S()), S(), id, def.deps)
      ensures Excused(script, Sc(), thrown)
      decreases left.Size(), 7, 0
    {
      hide Inv, Core, Grows, Leads, Fair, FairFor, Budget, Doomed, WithDefinition, EndsUp, IsDisturbed;
      ghost var a := Sc();
      Store(id, def);
      ghost var b := Sc();
      InvIsCore(b.s, {});
      NotYetBegun(b.s, {}, id);
      thrown := Resolve(id);
      LeadsGrows(b, Sc(), {id});
      DeclarationGrows(b.s, S(), id);
      LeadsAroundNew(a, b, Sc(), id);
      EndsUpLater(a.s, b.s, S(), id, def, b.s.modules[id]);
    }

    method Store(id: nat, def: Definition)
      requires Inv(S(), {}) && id !in modules && id < nextId
      requires FairFor(script, Sc(), WithDefinition(Tables(track.defs, anonymous), id, def))
      requires forall j :: 0 <= j < |def.deps| ==> def.deps[j].Id() < nextId
      modifies `modules, `track
      ensures Inv(S(), {}) && Fair(script, Sc()) && Leads(old(Sc()), Sc(), {}) && Budget(Sc()) == Budget(old(Sc()))
      ensures id in modules && IsDeclare(old(S()), S(), id, def, modules[id])
      ensures Sc() == old(Sc()).(s := S())
    {
      hide Inv, Core, Grows, FairFor, Fair, Leads, Budget, WithDefinition;
      ghost var a := Sc();
      InvIsCore(S(), {});
      DefinedIsStored(S(), {});
      var m := Module(Some(def.deps), def.callback, def.hasErrorback, |def.deps|, false, None, false, Fresh(id));
      modules := modules[id := m];
      track := track.(defs := track.defs[id := def], declared := track.declared[id := def.deps],
              stack := Resolving(id, 0, |def.deps|, track.stack));
      DeclareKeeps(a.s, S(), id, def, m);
      StoreStep(script, a, Sc(), id, def, m);
    }

    /** Looks at the dependencies of a new module one after the other. */
    method Resolve(id: nat) returns (thrown: Option<nat>)
      requires Inv(S(), {}) && Fair(script, Sc())
      requires !track.flying
      requires id in modules && id in track.declared && modules[id].dependencies == Some(track.declared[id])
      requires !modules[id].isComplete && id !in track.notified && id in track.defs
      requires modules[id].unresolved == |track.declared[id]|
      requires track.stack.Resolving? && track.stack.id == id
      requires track.stack.visited == 0 && track.stack.left == |track.declared[id]|
      modifies this
      ensures Inv(S(), {}) && Fair(script, Sc()) && track.stack == old(track.stack).below
      ensures Leads(old(Sc()), Sc(), {id}) && Budget(Sc()) == Budget(old(Sc()))
      ensures id in modules
      ensures thrown.None? ==> id in track.notified || modules[id].isComplete || modules[id].unresolved > 0
      ensures old(track.declared)[id] == [] ==> modules[id].isComplete
      ensures left.Size() == old(left.Size()) ==>
        && thrown.None? && track.dead == old(track.dead) && track.occurred == old(track.occurred)
        && EndsUp(old(S()), S(), id, old(track.declared)[id])
      ensures Excused(script, Sc(), thrown)
      decreases left.Size(), 6
    {
      hide Inv, Core, Grows, Leads, Fair, Legal, Budget, Doomed, FailsBy, SameOthers, ResolvesStill, Orderly, EndsUp;
      hide IsDisturbed, IsCountedDown, IsBroken, IsAskedFor, IsWaitedFor, IsCycle, IsThere;
      ghost var a, below := Sc(), track.stack.below;
      LeadsReflexive(a, {id});
      InvIsCore(S(), {});
      var deps := modules[id].dependencies.value;
      var failed := false;
      thrown := None;
      var i := 0;
      BlameNobody(a, id, deps);
      while i < |deps| && !failed && thrown.None?
        invariant 0 <= i <= |deps|
        invariant Inv(S(), {}) && Fair(script, Sc()) && Leads(a, Sc(), {id}) && Budget(Sc()) == Budget(a)
        invariant track.stack == Resolving(id, i, |deps| - i, below)
        invariant id in modules && id in track.declared && id in track.defs && track.declared[id] == deps
        invariant failed ==> id in track.notified && id !in track.begun
        invariant deps == [] ==> !failed && thrown.None? && modules[id].unresolved == 0
        invariant thrown.Some? ==> modules[id].isComplete || modules[id].unresolved > 0
        invariant Excused(script, Sc(), thrown)
        invariant left.Size() <= old(left.Size())
        invariant left.Size() == old(left.Size()) ==> thrown.None? && ResolvesStill(a, Sc(), id, deps, i, failed)
        decreases |deps| - i, if failed then 0 else 1
      {
        ghost var b := Sc();
        failed, thrown := ResolveOne(id, deps[i]);
        ResolvedFurther(a, b, Sc(), id);
        if left.Size() == old(left.Size()) {
          BlameOne(a, b, Sc(), id, deps, i, failed);
        }
        if !failed {
          i := i + 1;
        }
      }
      ghost var c := Sc();
      thrown := EndResolve(id, failed, thrown);
      LeadsTransitive(a, c, Sc(), {id});
      LeadsGrows(a, c, {id});
      LeadsGrows(c, Sc(), {id});
      if left.Size() == old(left.Size()) {
        Judge(a, c, Sc(), id, deps, i, failed);
      }
    }

    /** The loop is over: the module is complete if it waits for nothing, unless an exception has cut the loop short. */
    method EndResolve(id: nat, failed: bool, escaped: Option<nat>) returns (thrown: Option<nat>)
      requires Inv(S(), {}) && Fair(script, Sc())
      requires track.stack.Resolving? && track.stack.id == id && id in modules
      requires escaped.None? && !failed ==> track.stack.left == 0
      requires failed ==> id in track.notified
      requires escaped.Some? ==> modules[id].isComplete || modules[id].unresolved > 0
      requires Excused(script, Sc(), escaped)
      modifies this
      ensures Inv(S(), {}) && Fair(script, Sc()) && track.stack == old(track.stack).below
      ensures Leads(old(Sc()), Sc(), {id}) && Budget(Sc()) == Budget(old(Sc()))
      ensures id in modules
      ensures thrown.None? ==> id in track.notified || modules[id].isComplete || modules[id].unresolved > 0
      ensures escaped.None? && !failed && old(modules)[id].unresolved == 0 ==> modules[id].isComplete
      ensures escaped.None? && failed ==> thrown.None? && Sc() == old(Sc()).(s := old(S()).(stack := track.stack))
      ensures escaped.None? && left.Size() == old(left.Size()) ==> thrown.None? && Still(old(Sc()), Sc())
      ensures Excused(script, Sc(), thrown)
      decreases left.Size(), 5
    {
      hide Inv, Core, Grows, Leads, Fair, Legal, Budget, Orderly, IsDisturbed;
      ghost var c := Sc();
      if escaped.Some? {
        FairIsLegal(script, c);
        Bury(id);
        FairIsLegal(script, Sc());
        PivotDropped(S(), id);
        LeadsLess(c, Sc(), {}, {id});
        return escaped;
      }
      track := track.(stack := track.stack.below);
      LeaveKeeps(c.s, S(), id);
      InnerStep(script, c, Sc(), {id});
      ghost var d := Sc();
      InvIsCore(d.s, {id});
      ModuleFacts(d.s, {id}, id);
      thrown := None;
      if !failed && modules[id].unresolved == 0 {
        thrown := OnModuleComplete(id);
        LeadsLess(d, Sc(), {}, {id});
        LeadsTransitive(c, d, Sc(), {id});
      } else {
        PivotDropped(d.s, id);
      }
    }

    /** Deals with one dependency; says whether the module failed because of it. */
    method ResolveOne(id: nat, dep: Dependency) returns (failed: bool, thrown: Option<nat>)
      requires Inv(S(), {}) && Fair(script, Sc()) && AtDependency(S(), id, dep)
      requires !track.flying
      modifies this
      ensures Inv(S(), {}) && Fair(script, Sc())
      ensures Leads(old(Sc()), Sc(), {id}) && Budget(Sc()) == Budget(old(Sc()))
      ensures failed <==> FailsBy(old(modules), dep)
      ensures failed ==>
        && thrown.None? && id !in track.begun
        && IsFailure(old(Sc()), Sc(), id, old(modules)[dep.Id()].error.value)
      ensures !failed ==> track.stack == NextDependency(old(track.stack))
      ensures dep.Builtin() || IsThere(old(modules), dep) ==>
        thrown.None? && IsCountedDown(old(Sc()), Sc(), id, dep.Exports?)
      ensures IsCycle(old(modules), id, dep) ==> thrown.None? && IsBroken(old(Sc()), Sc(), id, dep)
      ensures IsWaitedFor(old(modules), id, dep) ==> IsAskedFor(old(Sc()), Sc(), id, dep)
      ensures thrown.Some? ==> id in modules && (modules[id].isComplete || modules[id].unresolved > 0)
      ensures left.Size() == old(left.Size()) ==> thrown.None? && AloneChanges(old(Sc()), Sc(), id, failed)
      ensures Excused(script, Sc(), thrown)
      decreases left.Size(), 5
    {
      hide Inv, Core, Grows, Leads, Fair, Legal, Budget, Reaches, RequestedExcept, IsCycleReport, ModuleGraph;
      hide IsDisturbed;
      hide IsCountedDown, IsBroken, IsAskedFor, IsFailure, AloneChanges;
      ghost var a := Sc();
      InvIsCore(a.s, {});
      OnTopIsOwed(a.s, id);
      OwedNotBegun(a.s, {}, id);
      if dep.Exports? {
        PassExports(id, dep);
        return false, None;
      }
      if dep.ModuleInfo? || dep.Require? {
        SettleOne(id, dep);
        return false, None;
      }
      if dep.Id() in modules && modules[dep.Id()].isComplete {
        ModuleFacts(a.s, {}, dep.Id());
        if modules[dep.Id()].error.Some? {
          Fail(id, modules[dep.Id()].error.value);
          LeadsLess(a, Sc(), {}, {id});
          FailureFacts(a, Sc(), id, a.s.modules[dep.Id()].error.value);
          return true, None;
        }
        SettleOne(id, dep);
        return false, None;
      }
      CoreIsBounded(a.s, {});
      var cyclic := HasDependencyPath(modules, nextId, dep.Id(), id);
      if cyclic {
        BreakCycle(id, dep);
        BrokenFacts(a, Sc(), id, dep);
        return false, None;
      }
      thrown := WaitFor(id, dep);
      LeadsLess(a, Sc(), {}, {id});
      failed := false;
      if left.Size() == old(left.Size()) {
        WaitedFacts(a, Sc(), id);
      }
    }

    /** A dependency has failed before: the module fails, and whoever waits for it is not told. */
    method Fail(id: nat, err: Error)
      requires Inv(S(), {}) && Fair(script, Sc()) && id in modules && id !in track.begun && !NoErrors(modules)
      requires !track.flying
      modifies `modules, `track
      ensures Inv(S(), {}) && Fair(script, Sc()) && Leads(old(Sc()), Sc(), {}) && Budget(Sc()) == Budget(old(Sc()))
      ensures IsFailure(old(Sc()), Sc(), id, err) && !track.flying
    {
      hide Inv, Core, Grows, Fair, Leads, Budget;
      ghost var a := Sc();
      var handled := OnDependencyError(id, err, {});
      assert {} - {id} == {};
      track := track.(missed := track.missed + Overlooked(a.s, id));
      FailStep(script, a, Sc(), id, err);
    }

    /** The dependency is neither complete nor leads back: wait for it, and set off its loading. */
    method WaitFor(id: nat, dep: Dependency) returns (thrown: Option<nat>)
      requires Inv(S(), {}) && Fair(script, Sc()) && AtDependency(S(), id, dep) && IsWaitedFor(modules, id, dep)
      requires !track.flying
      modifies this
      ensures Inv(S(), {}) && Fair(script, Sc()) && track.stack == NextDependency(old(track.stack))
      ensures Leads(old(Sc()), Sc(), {}) && Budget(Sc()) == Budget(old(Sc()))
      ensures IsAskedFor(old(Sc()), Sc(), id, dep)
      ensures id in modules && (modules[id].isComplete || modules[id].unresolved > 0)
      ensures left.Size() == old(left.Size()) ==>
        thrown.None? && modules == old(modules) && Still(old(Sc()), Sc())
      ensures Excused(script, Sc(), thrown)
      decreases left.Size(), 4
    {
      hide Inv, Core, Grows, Leads, Fair, Legal, Budget, Reaches, RequestedExcept, ModuleGraph, AtDependency, IsWait;
      hide IsDisturbed;
      ghost var a := Sc();
      Wait(id, dep);
      ghost var b := Sc();
      AfterWait(a.s, b.s, id, dep);
      thrown := Fetch(dep);
      LeadsTransitive(a, b, Sc(), {});
      LeadsSteady(b, Sc(), {}, id);
      LeadsGrows(a, Sc(), {});
      LeadsBreaks(b, Sc(), {}, id, dep.Id());
      InvIsCore(S(), {});
      CoreIsSettled(S(), {});
      if id !in track.notified {
        LastIsSettled(a.s, S(), id, dep);
      }
    }

    /** Records that module id waits for the dependency. */
    method Wait(id: nat, dep: Dependency)
      requires Inv(S(), {}) && Fair(script, Sc()) && AtDependency(S(), id, dep) && IsWaitedFor(modules, id, dep)
      modifies `inverse, `track
      ensures Core(S(), {}) && RequestedExcept(S(), dep.Id()) && Fair(script, Sc())
      ensures Leads(old(Sc()), Sc(), {}) && Budget(Sc()) == Budget(old(Sc()))
      ensures IsWait(old(S()), S(), id, dep) && Sc() == old(Sc()).(s := S())
    {
      hide Inv, Core, Grows, RequestedExcept, Reaches, Fair, Leads, Budget;
      ghost var a := Sc();
      InvIsCore(a.s, {});
      UndefinedNotBegun(a.s, {}, dep.Id());
      UndefinedNotTold(a.s, {}, dep.Id());
      inverse := inverse[dep.Id() := Waiting(inverse, dep.Id()) + [id]];
      track := track.(stack := NextDependency(track.stack));
      WaitKeeps(a.s, S(), id, dep);
      WaitStep(script, a, Sc(), id, dep);
    }

    /** The dependency leads back to the module: report the cycle and do not wait. */
    method BreakCycle(id: nat, dep: Dependency)
      requires Inv(S(), {}) && Fair(script, Sc()) && AtDependency(S(), id, dep) && !dep.Builtin()
      requires Reaches(ModuleGraph(modules), dep.Id(), id)
      modifies `hasCycle, `reports, `modules, `track
      ensures Inv(S(), {}) && Fair(script, Sc()) && Leads(old(Sc()), Sc(), {id}) && Budget(Sc()) == Budget(old(Sc()))
      ensures IsBroken(old(Sc()), Sc(), id, dep) && track.flying == old(track.flying)
    {
      hide Inv, Core, Grows, IsCycleReport, Reaches, ModuleGraph, Fair, Leads, Budget;
      ghost var a := Sc();
      hasCycle := true;
      var report := DescribeCycle(modules, dep.Id(), id);
      reports := reports + [report];
      modules := modules[id := modules[id].(unresolved := modules[id].unresolved - 1)];
      track := track.(stack := NextDependency(track.stack), broken := track.broken + {(id, dep.Id())});
      SettleKeeps(a.s, S(), id, dep, modules[id].exportsPassedIn, Some(report));
      BreakStep(script, a, Sc(), id, dep, modules[id].exportsPassedIn, report);
    }

    method PassExports(id: nat, dep: Dependency)
      requires Inv(S(), {}) && Fair(script, Sc()) && AtDependency(S(), id, dep) && dep.Exports?
      modifies `modules, `track
      ensures Inv(S(), {}) && Fair(script, Sc()) && Leads(old(Sc()), Sc(), {id}) && Budget(Sc()) == Budget(old(Sc()))
      ensures IsCountedDown(old(Sc()), Sc(), id, true) && AloneChanges(old(Sc()), Sc(), id, false)
      ensures track.stack == NextDependency(old(track.stack)) && track.flying == old(track.flying)
    {
      hide Inv, Core, Grows, Fair, Leads, Budget, AloneChanges;
      ghost var a := Sc();
      modules := modules[id := modules[id].(exportsPassedIn := true, unresolved := modules[id].unresolved - 1)];
      track := track.(stack := NextDependency(track.stack));
      SettleKeeps(a.s, S(), id, dep, true, None);
      CountedDownStep(script, a, Sc(), id, true);
    }

    /** A dependency that needs no waiting. */
    method SettleOne(id: nat, dep: Dependency)
      requires Inv(S(), {}) && Fair(script, Sc()) && AtDependency(S(), id, dep)
      requires !dep.Exports? && (dep.Builtin() || dep.Id() in track.begun)
      modifies `modules, `track
      ensures Inv(S(), {}) && Fair(script, Sc()) && Leads(old(Sc()), Sc(), {id}) && Budget(Sc()) == Budget(old(Sc()))
      ensures IsCountedDown(old(Sc()), Sc(), id, false) && AloneChanges(old(Sc()), Sc(), id, false)
      ensures track.stack == NextDependency(old(track.stack)) && track.flying == old(track.flying)
    {
      hide Inv, Core, Grows, Fair, Leads, Budget, AloneChanges;
      ghost var a := Sc();
      modules := modules[id := modules[id].(unresolved := modules[id].unresolved - 1)];
      track := track.(stack := NextDependency(track.stack));
      SettleKeeps(a.s, S(), id, dep, modules[id].exportsPassedIn, None);
      CountedDownStep(script, a, Sc(), id, false);
    }

    /** Sets off the loading of a dependency that is now being waited for. */
    method Fetch(dep: Dependency) returns (thrown: Option<nat>)
      requires Core(S(), {}) && RequestedExcept(S(), dep.Id()) && Fair(script, Sc()) && !dep.Builtin()
      requires !track.flying
      requires Names(track.declared, dep) && (dep.Plugin? ==> IsPlugin(track.declared, dep.pluginId))
      modifies this
      ensures Inv(S(), {}) && Fair(script, Sc()) && track.stack == old(track.stack)
      ensures Leads(old(Sc()), Sc(), {}) && Budget(Sc()) == Budget(old(Sc()))
      ensures var first := FirstAsked(old(modules), dep); first in modules || first in known
      ensures left.Size() == old(left.Size()) ==> thrown.None? && modules == old(modules) && Still(old(Sc()), Sc())
      ensures Excused(script, Sc(), thrown)
      decreases left.Size(), 3
    {
      hide Inv, Core, Grows, RequestedExcept, RequestedOnce, Fair, Leads, Budget, IsDisturbed;
      ghost var a := Sc();
      if dep.Plugin? {
        if dep.pluginId in modules && modules[dep.pluginId].isComplete {
          ModuleFacts(a.s, {}, dep.pluginId);
          thrown := LoadPluginDependency(dep);
        } else {
          UndefinedNotBegun(a.s, {}, dep.pluginId);
          inversePlugin := inversePlugin[dep.pluginId :=
            (if dep.pluginId in inversePlugin then inversePlugin[dep.pluginId] else []) + [dep]];
          HoldKeeps(a.s, S(), dep, {});
          InnerStep(script, a, Sc(), {});
          ghost var b := Sc();
          thrown := LoadModule(dep.pluginId);
          LeadsTransitive(a, b, Sc(), {});
        }
      } else {
        RequestExcepted(a.s, dep.Id());
        thrown := LoadModule(dep.Id());
      }
    }

    /** Asks the script loader for a module, unless it is defined or has been asked for before. */
    method LoadModule(id: nat) returns (thrown: Option<nat>)
      requires Core(S(), {}) && RequestedOnce(S(), id) && Fair(script, Sc()) && IsAskable(track.declared, id, None)
      requires !track.flying
      modifies this
      ensures Inv(S(), {}) && Fair(script, Sc()) && track.stack == old(track.stack)
      ensures Leads(old(Sc()), Sc(), {}) && Budget(Sc()) == Budget(old(Sc()))
      ensures id in modules || id in known
      ensures old(id in modules || id in known) ==> thrown.None? && Sc() == old(Sc())
      ensures Calmer(old(left), old(modules), left, modules)
      ensures left.Size() == old(left.Size()) ==> thrown.None? && modules == old(modules) && Still(old(Sc()), Sc())
      ensures Excused(script, Sc(), thrown)
      decreases left.Size(), 2
    {
      hide Inv, Core, RequestedOnce, Fair, Leads, Budget, IsDisturbed;
      ghost var a := Sc();
      if id in modules || id in known {
        AlreadyRequested(a.s, id);
        CoreIsInv(a.s, {});
        LeadsReflexive(a, {});
        return None;
      }
      var load := Request(id, None);
      ghost var b := Sc();
      thrown := Call(load);
      LeadsGrows(b, Sc(), {});
      LeadsTransitive(a, b, Sc(), {});
    }

    /** Hands a resource to its plugin, unless it is defined or has been handed over before. */
    method LoadPluginDependency(dep: Dependency) returns (thrown: Option<nat>)
      requires Core(S(), {}) && RequestedExcept(S(), dep.Id()) && Fair(script, Sc())
      requires !track.flying
      requires dep.Plugin? && Names(track.declared, dep)
      requires dep.pluginId in track.begun || dep.pluginId in track.notified
      modifies this
      ensures Inv(S(), {}) && Fair(script, Sc()) && track.stack == old(track.stack)
      ensures Leads(old(Sc()), Sc(), {}) && Budget(Sc()) == Budget(old(Sc()))
      ensures dep.Id() in modules || dep.Id() in known
      ensures old(dep.Id() in modules || dep.Id() in known) ==> thrown.None? && Sc() == old(Sc())
      ensures Calmer(old(left), old(modules), left, modules)
      ensures left.Size() == old(left.Size()) ==> thrown.None? && modules == old(modules) && Still(old(Sc()), Sc())
      ensures Excused(script, Sc(), thrown)
      decreases left.Size(), 2
    {
      hide Inv, Core, RequestedOnce, RequestedExcept, Fair, Leads, Budget, IsDisturbed;
      ghost var a := Sc();
      RequestExcepted(a.s, dep.Id());
      if dep.Id() in modules || dep.Id() in known {
        AlreadyRequested(a.s, dep.Id());
        CoreIsInv(a.s, {});
        LeadsReflexive(a, {});
        return None;
      }
      var load := Request(dep.Id(), Some(dep.pluginId));
      ghost var b := Sc();
      thrown := Call(load);
      LeadsGrows(b, Sc(), {});
      LeadsTransitive(a, b, Sc(), {});
    }

    /** Notes that an id has been asked for; the next call in the script is what the loader does. */
    method Request(id: nat, plugin: Option<nat>) returns (load: Load)
      requires Core(S(), {}) && RequestedOnce(S(), id) && Fair(script, Sc()) && IsAskable(track.declared, id, plugin)
      requires !track.flying
      requires plugin.Some? ==> plugin.value in track.begun || plugin.value in track.notified
      requires id !in modules && id !in known
      modifies `known, `left, `track
      ensures Inv(S(), {}) && Fair(script, Sc()) && Leads(old(Sc()), Sc(), {}) && id in known
      ensures Budget(Sc()) + multiset(load.events) == Budget(old(Sc()))
      ensures left.Size() + Due(load.events) <= old(left.Size())
      ensures left.Size() < old(left.Size()) || (left == old(left) && load == NO_LOAD)
      ensures IsRequest(old(S()), S(), id, plugin) && Sc() == old(Sc()).(s := S(), left := left)
      ensures IsLoadOf(script, load)
    {
      hide Inv, Core, RequestedOnce, Fair, Leads, Budget, Grows;
      ghost var a := Sc();
      load := if |left.loads| > 0 then left.loads[0] else NO_LOAD;
      known := known + {id};
      track := track.(log := track.log + [ScriptRequested(id, plugin)]);
      left := left.(loads := Drop(left.loads, 1));
      RequestKeeps(a.s, S(), id, plugin, {});
      RequestStep(script, a, Sc(), id, plugin, load);
    }

    /** A call to the script loader or a plugin. */
    method Call(load: Load) returns (thrown: Option<nat>)
      requires Inv(S(), {}) && Fair(script, Sc()) && IsLoadOf(script, load)
      requires !track.flying
      modifies this
      ensures Inv(S(), {}) && Fair(script, Sc()) && track.stack == old(track.stack) && Leads(old(Sc()), Sc(), {})
      ensures Budget(Sc()) == Budget(old(Sc())) + multiset(load.events)
      ensures load == NO_LOAD ==> thrown.None? && Sc() == old(Sc())
      ensures load.throws.Some? ==> thrown.Some?
      ensures load.events == [] ==> left == old(left) && modules == old(modules)
      ensures Excused(script, Sc(), thrown)
      decreases left.Size() + Due(load.events), 1
    {
      hide Inv, Fair, Legal, Leads, Budget, IsDisturbed;
      ghost var a := Sc();
      LeadsReflexive(a, {});
      LoadFacts(script, load);
      FairIsLegal(script, a);
      hide AllCatch, IsPeaceful, NobodyCatches;
      thrown := None;
      if |load.events| > 0 {
        thrown := Happen(load.events, load.catches);
        FairIsLegal(script, Sc());
      }
      if thrown.None? && load.throws.Some? {
        thrown := load.throws;
        ghost var b := Sc();
        Raise();
        LeadsTransitive(a, b, Sc(), {});
        Unpeaceful(script, track.occurred);
      }
    }

    /** An exception sets out. */
    method Raise()
      requires Legal(script, Sc())
      modifies `track
      ensures Legal(script, Sc()) && Leads(old(Sc()), Sc(), {}) && Budget(Sc()) == Budget(old(Sc()))
      ensures old(Fair(script, Sc())) ==> Fair(script, Sc())
      ensures Sc() == old(Sc()).(flying := true)
    {
      hide Legal, Fair, Leads, Budget;
      ghost var a := Sc();
      track := track.(flying := true);
      RaiseStep(script, a, Sc());
    }

    /** Foreign code catches an exception: code that the manager has called, or, with nothing going on, its caller. */
    method Catch()
      requires Inv(S(), {}) && Fair(script, Sc()) && (track.stack != Idle ==> !NobodyCatches(script))
      modifies `track
      ensures Inv(S(), {}) && Fair(script, Sc()) && Leads(old(Sc()), Sc(), {}) && Budget(Sc()) == Budget(old(Sc()))
      ensures IsCatch(old(S()), S(), track.stack != Idle) && Sc() == old(Sc()).(s := S(), flying := false)
    {
      hide Inv, Grows, Fair, Leads, Budget;
      ghost var a := Sc();
      track := track.(log := track.log + [Caught(track.stack != Idle)], flying := false);
      CatchKeeps(a.s, S(), track.stack != Idle, {});
      CatchStep(script, a, Sc(), track.stack != Idle);
    }

    /** A sequence of events, each of them arbitrary; an exception in one of them ends it unless it is caught. */
    method Happen(events: seq<Event>, catches: bool) returns (thrown: Option<nat>)
      requires Inv(S(), {}) && Fair(script, Sc()) && (AllCatch(script) ==> catches)
      requires NobodyCatches(script) && track.stack != Idle ==> !catches
      requires !track.flying
      modifies this
      ensures Inv(S(), {}) && Fair(script, Sc()) && track.stack == old(track.stack) && Leads(old(Sc()), Sc(), {})
      ensures Budget(Sc()) == Budget(old(Sc())) + multiset(events)
      ensures catches ==> thrown.None?
      ensures thrown.None? ==> forall i :: 0 <= i < |events| ==> HasHappened(S(), events[i])
      ensures thrown.None? && left.Size() == old(left.Size()) ==> track.occurred == old(track.occurred) + events
      ensures Excused(script, Sc(), thrown)
      decreases left.Size(), 10, |events|
    {
      hide Inv, Fair, Leads, Budget, HasHappened, IsDisturbed, AllCatch, IsPeaceful, SecondAnonymous, EndsUp, IsToldOf;
      hide NobodyCatches;
      hide Pending;
      ghost var a := Sc();
      LeadsReflexive(a, {});
      if |events| == 0 {
        return None;
      }
      FirstAndRest(events);
      thrown := HappenOne(events[0]);
      ghost var b := Sc();
      LeadsGrows(a, b, {});
      if thrown.Some? && !catches {
        DropEvents(multiset(events[1..]));
        Uncaught(script, track.occurred);
        LeadsTransitive(a, b, Sc(), {});
        return;
      }
      if thrown.Some? {
        Catch();
        LeadsGrows(b, Sc(), {});
        LeadsTransitive(a, b, Sc(), {});
      }
      ghost var c := Sc();
      thrown := Happen(events[1..], catches);
      LeadsTransitive(a, c, Sc(), {});
      LeadsGrows(c, Sc(), {});
      if thrown.None? {
        AllHaveHappened(b.s, S(), events);
      }
    }

    /** An exception keeps the rest of a sequence of events from happening. */
    method DropEvents(ghost rest: multiset<Event>)
      requires Inv(S(), {}) && Fair(script, Sc()) && !AllCatch(script)
      modifies `track
      ensures Inv(S(), {}) && Fair(script, Sc()) && Leads(old(Sc()), Sc(), {})
      ensures Budget(Sc()) == Budget(old(Sc())) + rest
      ensures Sc() == old(Sc()).(dropped := track.dropped)
    {
      hide Inv, Fair, Leads, Budget;
      ghost var b := Sc();
      track := track.(dropped := track.dropped + rest);
      DropRest(script, b, Sc(), rest);
    }

    method HappenOne(e: Event) returns (thrown: Option<nat>)
      requires Inv(S(), {}) && Fair(script, Sc())
      requires !track.flying
      modifies this
      ensures Inv(S(), {}) && Fair(script, Sc()) && track.stack == old(track.stack) && Leads(old(Sc()), Sc(), {})
      ensures Budget(Sc()) == Budget(old(Sc())) + multiset{e}
      ensures HasHappened(S(), e)
      ensures left.Size() == old(left.Size()) ==>
        && track.occurred == old(track.occurred) + [e] && track.dead == old(track.dead)
        && (e.Define? && e.id !in old(modules) ==> EndsUp(old(S()), S(), e.id, e.deps))
      ensures e.Define? && e.id !in old(modules) && e.deps == [] ==> e.id in modules && modules[e.id].isComplete
      ensures e.LoadError? ==> inverse == old(inverse) && IsToldOf(old(S()), S(), e.id)
      ensures thrown.Some? && IsPeaceful(script) ==> SecondAnonymous(track.occurred)
      ensures thrown.Some? <==> track.flying
      ensures e.DefineAnonymous? ==> (thrown.Some? <==> old(anonymous).Some?)
      ensures e.LoadError? || (e.Define? && left.Size() == old(left.Size())) ==> thrown.None?
      ensures old(track.occurred) + [e] <= track.occurred
      decreases left.Size(), 9
    {
      hide Inv, Fair, FairFor, Leads, Budget, After, Legal, Told, Affected, EndsUp, IsDisturbed, SecondAnonymous;
      hide IsPeaceful, NoLoadError;
      ghost var a := Sc();
      track := track.(occurred := track.occurred + [e]);
      ghost var b := Sc();
      OccurOne(script, a, b, e);
      match e {
        case Define(id, deps, callback, hasErrorback) =>
          thrown := DefineModule(id, deps, callback, hasErrorback);
        case DefineAnonymous(deps, callback) =>
          thrown := DefineNameless(deps, callback);
        case LoadOk(id) =>
          thrown := OnLoad(id);
        case LoadError(id, token) =>
          var order := OnLoadError(id, token);
          SelfIsAffected(inverse, id);
          thrown := None;
      }
      LeadsGrows(b, Sc(), {});
      LeadsTransitive(a, b, Sc(), {});
      Excuse(script, Sc());
    }

    /** The definition waits for the script's name, unless another one does; this is an error. */
    method DefineNameless(deps: seq<Dependency>, callback: Callback) returns (thrown: Option<nat>)
      requires Inv(S(), {}) && !track.flying
      requires FairFor(script, Sc(), Effect(Tables(track.defs, anonymous), DefineAnonymous(deps, callback)))
      modifies `anonymous, `track
      ensures Inv(S(), {}) && Fair(script, Sc()) && Leads(old(Sc()), Sc(), {}) && Budget(Sc()) == Budget(old(Sc()))
      ensures thrown.Some? <==> old(anonymous).Some?
      ensures Sc() == old(Sc()).(anonymous := anonymous, flying := thrown.Some?)
      ensures old(anonymous).None? ==> anonymous == Some(AnonymousCall(deps, callback))
    {
      hide Inv, Fair, FairFor, Leads, Budget, Legal;
      ghost var b := Sc();
      var second := anonymous.Some?;
      thrown := None;
      if !second {
        anonymous := Some(AnonymousCall(deps, callback));
      }
      TakeOver(script, b, Sc(), Effect(Tables(b.s.defs, b.anonymous), DefineAnonymous(deps, callback)));
      if second {
        thrown := Some(SECOND_ANONYMOUS);
        ghost var c := Sc();
        FairIsLegal(script, c);
        Raise();
        LeadsTransitive(b, c, Sc(), {});
      }
    }

    /** The script of a module has run; an anonymous definition in it now gets its name. */
    method OnLoad(id: nat) returns (thrown: Option<nat>)
      requires Inv(S(), {}) && FairFor(script, Sc(), Effect(Tables(track.defs, anonymous), LoadOk(id)))
      requires !track.flying
      modifies this
      ensures Inv(S(), {}) && Fair(script, Sc()) && track.stack == old(track.stack)
      ensures Leads(old(Sc()), Sc(), {}) && Budget(Sc()) == Budget(old(Sc()))
      ensures old(anonymous).None? ==> thrown.None? && Sc() == old(Sc())
      ensures old(anonymous).Some? ==> id in modules
      ensures old(anonymous).Some? && id !in old(modules) ==>
        && id in track.defs
        && track.defs[id] == Definition(old(anonymous).value.deps, old(anonymous).value.callback, false)
      ensures left.Size() == old(left.Size()) ==> track.occurred == old(track.occurred) && track.dead == old(track.dead)
      ensures Excused(script, Sc(), thrown)
      decreases left.Size(), 8
    {
      hide Inv, Fair, FairFor, Leads, Budget, EndsUp, IsDisturbed;
      ghost var a := Sc();
      LeadsReflexive(a, {});
      thrown := None;
      if anonymous.Some? {
        var call := anonymous.value;
        anonymous := None;
        ghost var def := Definition(call.deps, call.callback, false);
        SetAnonymous(script, a, Sc(), WithDefinition(Tables(track.defs, None), id, def));
        ghost var b := Sc();
        thrown := DefineModule(id, call.deps, call.callback, false);
        LeadsTransitive(a, b, Sc(), {});
      } else {
        FairIsFor(script, a);
      }
    }

    /** One of the dependencies of x, direct or not, has failed. */
    method OnDependencyError(x: nat, err: Error, ghost pivot: set<nat>) returns (handled: bool)
      requires Inv(S(), pivot) && x in modules
      modifies `modules, `track
      ensures Inv(S(), pivot - {x}) && Grows(old(S()), S()) && Sc() == old(Sc()).(s := S())
      ensures handled == old(modules)[x].hasErrorback
      ensures IsNotify(old(S()), S(), x, err)
    {
      hide Inv;
      ghost var s := S();
      modules := modules[x := modules[x].(isComplete := true, error := Some(err))];
      track := track.(notified := track.notified + {x}, log := track.log + [DependencyError(x)]);
      NotifyKeeps(s, S(), x, err, pivot);
      handled := modules[x].hasErrorback;
    }

    /** A script could not be loaded: everyone who waits for it is told, breadth first. */
    method OnLoadError(id: nat, token: nat) returns (ghost order: seq<nat>)
      requires Inv(S(), {}) && FairFor(script, Sc(), WithDefinition(Tables(track.defs, anonymous), id, PLACEHOLDER))
      requires !track.flying
      requires !NoLoadError(track.occurred)
      modifies `nextId, `modules, `track
      ensures Inv(S(), {}) && Fair(script, Sc())
      ensures Leads(old(Sc()), Sc(), {}) && Budget(Sc()) == Budget(old(Sc()))
      ensures Distinct(order) && forall x :: x in order <==> Affected(inverse, id, x)
      ensures track.notified == old(track.notified) + (set x | x in order)
      ensures Sc() == old(Sc()).(s := S()) && inverse == old(inverse)
      ensures track.stack == old(track.stack) && track.dead == old(track.dead)
      ensures Told(old(modules)[id := FoundOrMade(old(modules), id)], modules, order, Error(Loading, id, token))
      ensures track.log == old(track.log) + Notices(order)
        + if SomeErrorback(old(modules)[id := FoundOrMade(old(modules), id)], order) then [] else [ErrorReported(id)]
    {
      hide Inv, Core, Grows, Told, SomeErrorback, Affected, Fair, FairFor, Leads, Budget, Notices;
      ghost var a := Sc();
      FindOrMake(id);
      ghost var b := Sc();
      var error := Error(Loading, id, token);
      var someoneNotified;
      someoneNotified, order := TellAll(id, error);
      TellStep(script, b, Sc(), id, order, error);
      LeadsTransitive(a, b, Sc(), {});
      if !someoneNotified {
        ghost var d := Sc();
        FairIsLegal(script, d);
        Report(id);
        ReportIsFair(script, d, Sc(), id);
        LeadsTransitive(a, d, Sc(), {});
      }
    }

    /** The module that a failing script was to define, perhaps without dependencies. */
    method FindOrMake(id: nat)
      requires Inv(S(), {}) && FairFor(script, Sc(), WithDefinition(Tables(track.defs, anonymous), id, PLACEHOLDER))
      modifies `nextId, `modules, `track
      ensures Inv(S(), {id}) && Fair(script, Sc())
      ensures Leads(old(Sc()), Sc(), {}) && Budget(Sc()) == Budget(old(Sc()))
      ensures modules == old(modules)[id := FoundOrMade(old(modules), id)]
      ensures Sc() == old(Sc()).(s := S())
      ensures S() == old(S()).(nextId := nextId, modules := modules, defs := track.defs, declared := track.declared)
    {
      hide Inv, Core, Grows, Fair, FairFor, Leads, Budget, WithDefinition;
      ghost var a := Sc();
      InvIsCore(S(), {});
      DefinedIsStored(S(), {});
      Intern(id);
      ghost var b := Sc();
      if id !in modules {
        Make(id);
        LeadsTransitive(a, b, Sc(), {});
      } else {
        KnownDefinition(script, b, id, PLACEHOLDER);
        PivotAdded(b.s, id);
      }
    }

    /** A failed script that defined nothing leaves a module without dependencies. */
    method Make(id: nat)
      requires Inv(S(), {}) && id !in modules && id < nextId
      requires FairFor(script, Sc(), WithDefinition(Tables(track.defs, anonymous), id, PLACEHOLDER))
      modifies `modules, `track
      ensures Inv(S(), {id}) && Fair(script, Sc()) && Leads(old(Sc()), Sc(), {}) && Budget(Sc()) == Budget(old(Sc()))
      ensures modules == old(modules)[id := Placeholder(id)]
      ensures Sc() == old(Sc()).(s := S())
      ensures S() == old(S()).(modules := modules, defs := track.defs, declared := track.declared)
    {
      hide Inv, Core, Grows, FairFor, Fair, Leads, Budget;
      ghost var a := Sc();
      InvIsCore(S(), {});
      DefinedIsStored(S(), {});
      modules := modules[id := Placeholder(id)];
      track := track.(defs := track.defs[id := PLACEHOLDER], declared := track.declared[id := []]);
      PlaceholderKeeps(a.s, S(), id, modules[id]);
      PlaceholderStep(script, a, Sc(), id, modules[id]);
    }

    /** The walk along the inverse dependencies. */
    method TellAll(id: nat, error: Error) returns (someoneNotified: bool, ghost order: seq<nat>)
      requires Inv(S(), {id}) && id in modules
      modifies `modules, `track
      ensures Inv(S(), {}) && Grows(old(S()), S()) && IsTelling(old(Sc()), Sc())
      ensures Distinct(order) && forall x :: x in order <==> Affected(inverse, id, x)
      ensures track.notified == old(track.notified) + set x | x in order
      ensures Told(old(modules), modules, order, error)
      ensures track.log == old(track.log) + Notices(order)
      ensures someoneNotified <==> SomeErrorback(old(modules), order)
    {
      hide Inv, Core, Grows, IsWalk;
      ghost var a := Sc();
      InvIsCore(a.s, {id});
      WaitersAreDefined(a.s, {id});
      ModuleFacts(a.s, {id}, id);
      GrowsReflexive(a.s);
      var seen := seq(nextId, i => false);
      someoneNotified := false;
      var queue := [id];
      seen := seen[id := true];
      order := [];
      StartWalk(a, id, error);
      while |queue| > 0
        invariant Inv(S(), if order == [] then {id} else {}) && Grows(a.s, S())
        invariant order == [] ==> queue == [id]
        invariant IsWalk(a, Sc(), id, error, order, queue, seen, someoneNotified)
        decreases Unmarked(seen) + |queue|
      {
        ghost var b := Sc();
        var element := queue[0];
        WalkFacts(a, b, id, error, order, queue, seen, someoneNotified);
        var handled := TellNext(element, error, order, a.s.modules);
        GrowsTransitive(a.s, b.s, S());
        var longer, marks :=
          EnqueueWaiters(inverse, id, element, order, queue[1..], seen, a.s.modules.Keys);
        WalkOn(a, b, Sc(), id, error, order, queue, seen, someoneNotified, longer, marks, handled);
        queue, seen, someoneNotified := longer, marks, handled || someoneNotified;
        order := order + [element];
      }
      EndWalk(a, Sc(), id, error, order, seen, someoneNotified);
    }

    method TellNext(element: nat, error: Error, ghost order: seq<nat>, ghost before: map<nat, Module>)
        returns (handled: bool)
      requires Inv(S(), if order == [] then {element} else {}) && element in modules
      requires Told(before, modules, order, error)
      modifies `modules, `track
      ensures Inv(S(), {}) && Grows(old(S()), S()) && IsTelling(old(Sc()), Sc())
      ensures track.notified == old(track.notified) + {element}
      ensures track.log == old(track.log) + [DependencyError(element)]
      ensures Told(before, modules, order + [element], error)
      ensures handled || SomeErrorback(before, order) <==> SomeErrorback(before, order + [element])
    {
      hide Inv, Core, Grows, SomeErrorback;
      ghost var s := S();
      ghost var pivot := if order == [] then {element} else {};
      handled := OnDependencyError(element, error, pivot);
      assert pivot - {element} == {};
      TellOne(before, s.modules, modules, order, element, error);
      AskOne(before, s.modules, order, element, error);
    }

    /** The values for a factory, in the order of the dependencies. */
    method CollectArguments(id: nat) returns (args: seq<Argument>)
      requires id in modules
      ensures modules[id].dependencies.Some? ==>
        && |args| == |modules[id].dependencies.value|
        && forall j :: 0 <= j < |args| ==> args[j] == ArgumentFor(modules, id, modules[id].dependencies.value[j])
    {
      args := [];
      var dependencies := modules[id].dependencies;
      if dependencies.Some? {
        var deps := dependencies.value;
        var i := 0;
        while i < |deps|
          invariant 0 <= i <= |deps| && |args| == i
          invariant forall j :: 0 <= j < i ==> args[j] == ArgumentFor(modules, id, deps[j])
        {
          var dep := deps[i];
          if dep.Exports? {
            args := args + [Val(modules[id].exports)];
          } else if dep.ModuleInfo? {
            args := args + [ModuleArg(id)];
          } else if dep.Require? {
            args := args + [RequireArg(id)];
          } else if dep.Id() in modules {
            args := args + [Val(modules[dep.Id()].exports)];
          } else {
            args := args + [NullArg];
          }
          i := i + 1;
        }
      }
    }

    /** Takes over what the module was defined with: a value, or what its factory makes. */
    method Complete(id: nat, reaction: Reaction) returns (m: Module, ghost outcome: FactoryOutcome, thrown: Option<nat>)
      requires Inv(S(), {}) && Legal(script, Sc()) && track.stack.Running? && track.stack.id == id
      requires !track.flying
      requires IsReactionOf(script, reaction)
      requires id in track.defs && (!track.defs[id].callback.Factory? ==> Happenings(reaction) == [])
      modifies this
      ensures Inv(S(), {}) && Legal(script, Sc()) && track.stack == old(track.stack) && Leads(old(Sc()), Sc(), {})
      ensures Budget(Sc()) == Budget(old(Sc())) + multiset(Happenings(reaction))
      ensures id in modules && modules[id].isComplete
      ensures IsCompletion(old(Sc()), Sc(), id, reaction, m, outcome, thrown, catchError)
      ensures thrown.None? ==> IsFinal(S(), id, m) && IsExcusedError(script, Sc(), id, m)
      ensures Happenings(reaction) == [] ==> IsQuietCall(old(Sc()), Sc(), id, thrown)
      ensures reaction == NO_REACTION ==> thrown.None?
      ensures Excused(script, Sc(), thrown)
      decreases left.Size() + Due(Happenings(reaction)), 3
    {
      hide Inv, Core, Grows, IsOutcome, Legal, Leads, Budget, IsInvoked, IsDisturbed, IsCompletion, IsFinal;
      hide IsExcusedError;
      InvIsCore(S(), {});
      RunningIsBegun(S(), {}, id);
      BegunIsDefined(S(), {}, id);
      LeadsReflexive(Sc(), {});
      m, outcome, thrown := modules[id], Returned(None, true), None;
      if m.callback.Factory? {
        ghost var a := Sc();
        m, outcome, thrown := InvokeFactory(id, reaction);
        InvokedIsCompletion(a, Sc(), id, reaction, m, outcome, thrown, catchError);
        if thrown.None? {
          InvokedIsFinal(Sc(), id, reaction, m, outcome, thrown, catchError);
          InvokedIsExcused(script, Sc(), id, reaction, m, outcome, thrown);
          m := Cleared(m);
        }
        return;
      }
      if m.callback.Literal? {
        m := m.(exports := m.callback.value);
      }
      ValueIsCompletion(script, Sc(), id, reaction, m, outcome);
      m := Cleared(m);
    }

    method InvokeFactory(id: nat, reaction: Reaction)
        returns (m: Module, ghost outcome: FactoryOutcome, thrown: Option<nat>)
      requires Inv(S(), {}) && Legal(script, Sc()) && track.stack.Running? && track.stack.id == id && id in track.defs
      requires !track.flying
      requires IsReactionOf(script, reaction)
      modifies this
      ensures Inv(S(), {}) && Legal(script, Sc()) && track.stack == old(track.stack) && Leads(old(Sc()), Sc(), {})
      ensures Budget(Sc()) == Budget(old(Sc())) + multiset(Happenings(reaction))
      ensures id in modules && modules[id].isComplete && id in track.defs && track.defs[id] == old(track.defs)[id]
      ensures IsInvoked(Sc(), id, reaction, m, outcome, thrown, catchError)
      ensures outcome.Threw? ==> IsDisturbed(script, track.occurred)
      ensures Happenings(reaction) == [] ==> IsQuietCall(old(Sc()), Sc(), id, thrown)
      ensures reaction == NO_REACTION ==> thrown.None?
      ensures Excused(script, Sc(), thrown)
      decreases left.Size() + Due(Happenings(reaction)), 2
    {
      hide Inv, Core, Grows, Legal, Leads, Budget, IsDisturbed;
      ghost var a := Sc();
      var end := CallFactory(id, reaction);
      outcome, thrown := end, None;
      m := modules[id];
      match end {
        case Threw(token) =>
          if !catchError {
            thrown := Some(token);
            return;
          }
          m := m.(error := Some(Error(InFactory, id, token)));
          ghost var b := Sc();
          Report(id);
          LeadsTransitive(a, b, Sc(), {});
        case Returned(result, exportsEmpty) =>
          if result.Some? && (!m.exportsPassedIn || exportsEmpty) {
            m := m.(exports := result.value);
          }
        case NotInvoked(exportsEmpty) =>
          // The value is null, which is not undefined.
          if !m.exportsPassedIn || exportsEmpty {
            m := m.(exports := Null);
          }
      }
    }

    /** What the factory does, and how it ends; an exception that it does not catch is its own. */
    method CallFactory(id: nat, reaction: Reaction) returns (end: FactoryOutcome)
      requires Inv(S(), {}) && Legal(script, Sc()) && track.stack.Running? && track.stack.id == id && id in track.defs
      requires !track.flying
      requires IsReactionOf(script, reaction)
      modifies this
      ensures Inv(S(), {}) && Legal(script, Sc()) && track.stack == old(track.stack) && Leads(old(Sc()), Sc(), {})
      ensures Budget(Sc()) == Budget(old(Sc())) + multiset(Happenings(reaction))
      ensures id in modules && modules[id].isComplete && id in track.defs && track.defs[id] == old(track.defs)[id]
      ensures Happenings(reaction) == [] ==> Sc() == old(Sc()).(flying := end.Threw?)
      ensures track.flying <==> end.Threw?
      ensures end == reaction.outcome || (end.Threw? && Happenings(reaction) != [] && !reaction.catches)
      ensures reaction.outcome.Threw? ==> end.Threw?
      ensures end.Threw? ==> IsDisturbed(script, track.occurred)
      decreases left.Size() + Due(Happenings(reaction)), 1
    {
      hide Inv, Core, Grows, Legal, Leads, Budget;
      ghost var a := Sc();
      InvIsCore(S(), {});
      RunningIsBegun(S(), {}, id);
      LeadsReflexive(a, {});
      end := reaction.outcome;
      ReactionFacts(script, reaction);
      hide AllCatch, IsPeaceful, IsDisturbed;
      var escaped := None;
      if |Happenings(reaction)| > 0 {
        LegalIsFair(script, a);
        escaped := Happen(Happenings(reaction), reaction.catches);
        if escaped.Some? {
          end := Threw(escaped.value);
        }
        FairIsLegal(script, Sc());
      }
      if end.Threw? && escaped.None? {
        ghost var b := Sc();
        Raise();
        LeadsTransitive(a, b, Sc(), {});
      }
      Unpeaceful(script, track.occurred);
      LeadsGrows(a, Sc(), {});
      DeclarationGrows(a.s, S(), id);
      InvIsCore(S(), {});
      BegunIsDefined(S(), {}, id);
    }

    /** The global error handler is called; an exception on its way ends here. */
    method Report(id: nat)
      requires Inv(S(), {}) && Legal(script, Sc())
      modifies `track
      ensures Inv(S(), {}) && Legal(script, Sc()) && Leads(old(Sc()), Sc(), {}) && Budget(Sc()) == Budget(old(Sc()))
      ensures IsReport(old(S()), S(), id) && Sc() == old(Sc()).(s := S(), flying := false)
    {
      hide Inv, Grows, Legal, Leads, Budget;
      ghost var a := Sc();
      track := track.(log := track.log + [ErrorReported(id)], flying := false);
      ReportKeeps(a.s, S(), id, {});
      ReportStep(script, a, Sc(), id);
    }

    /** The module counts as complete from here on, even while its factory runs. */
    method Begin(id: nat) returns (reaction: Reaction)
      requires Inv(S(), {id}) && Legal(script, Sc()) && id in modules
      requires !track.flying
      requires !modules[id].isComplete && modules[id].unresolved == 0
      modifies `modules, `left, `track
      ensures Inv(S(), {}) && Legal(script, Sc()) && Leads(old(Sc()), Sc(), {})
      ensures Budget(Sc()) + multiset(Happenings(reaction)) == Budget(old(Sc()))
      ensures IsNext(script, old(S()), id, reaction) && IsReactionOf(script, reaction)
      ensures left.Size() + Due(Happenings(reaction)) <= old(left.Size())
      ensures exists args :: IsBegin(old(S()), S(), id, args)
      ensures Sc() == old(Sc()).(s := S(), left := left)
      ensures track.defs[id].callback.Factory? || Happenings(reaction) == []
      ensures left.Size() < old(left.Size()) || (left == old(left) && reaction == NO_REACTION)
    {
      hide Inv, Core, Grows, Legal, Leads, Budget, IsNext, IsReactionOf, Drop, Happenings;
      hide IsBegin;
      ghost var a := Sc();
      InvIsCore(a.s, {id});
      NotYetBegun(a.s, {id}, id);
      var calls := modules[id].callback.Factory?;
      reaction := if calls && |left.factories| > 0 then left.factories[0] else NO_REACTION;
      ghost var args := Enter(id);
      left := if calls then left.(factories := Drop(left.factories, 1)) else left;
      BeginStep(script, a, Sc(), id, args, reaction);
    }

    /** Marks the module as complete and collects what its factory gets. */
    method Enter(id: nat) returns (ghost args: seq<Argument>)
      requires Inv(S(), {id}) && id in modules && !modules[id].isComplete && modules[id].unresolved == 0
      modifies `modules, `track
      ensures Inv(S(), {}) && Grows(old(S()), S())
      ensures IsBegin(old(S()), S(), id, args) && Sc() == old(Sc()).(s := S())
      ensures track.defs == old(track.defs)
    {
      hide Inv, Core, Grows;
      ghost var s := S();
      InvIsCore(s, {id});
      NotYetBegun(s, {id}, id);
      ModuleFacts(s, {id}, id);
      var values := CollectArguments(id);
      args := values;
      modules := modules[id := modules[id].(isComplete := true)];
      track := track.(begun := track.begun + {id}, log := track.log + [Completing(id, args, modules[id].callback)],
                      stack := Running(id, track.stack));
      BeginKeeps(s, S(), id, args);
    }

    /** Stores the completed module; fetches and clears the list of the modules that waited for it. */
    method Finish(id: nat, m: Module, ghost below: Stack) returns (inverseDeps: seq<nat>)
      requires Inv(S(), {}) && Legal(script, Sc()) && track.stack == Running(id, below)
      requires !track.flying
      requires CanFinish(id, m)
      modifies `modules, `inverse, `track
      ensures Inv(S(), {}) && Legal(script, Sc()) && Leads(old(Sc()), Sc(), {}) && Budget(Sc()) == Budget(old(Sc()))
      ensures inverseDeps == Waiting(old(inverse), id)
      ensures IsFinish(old(S()), S(), id, m) && Sc() == old(Sc()).(s := S())
    {
      hide Inv, Core, Grows, Legal, Leads, Budget;
      ghost var a := Sc();
      InvIsCore(a.s, {});
      RunningIsBegun(a.s, {}, id);
      inverseDeps := Waiting(inverse, id);
      modules := modules[id := m];
      inverse := inverse - {id};
      track := track.(ended := track.ended + {id}, log := track.log + [Completed(id, m.exports, m.error)],
              stack := Releasing(id, inverseDeps, below));
      FinishKeeps(a.s, S(), id, m);
      FinishStep(script, a, Sc(), id, m);
    }

    /** An exception leaves the activity on top of the stack unfinished for good. */
    method Bury(id: nat)
      requires Inv(S(), {}) && Legal(script, Sc()) && track.stack != Idle && track.flying
      requires IsDisturbed(script, track.occurred)
      modifies `track
      ensures Inv(S(), CutShort(old(track.stack))) && Legal(script, Sc())
      ensures Leads(old(Sc()), Sc(), {}) && Budget(Sc()) == Budget(old(Sc()))
      ensures IsBury(old(S()), S(), id) && Sc() == old(Sc()).(s := S())
      ensures old(Orderly(script, Sc())) ==> Orderly(script, Sc())
    {
      hide Inv, Core, Grows, Legal, Leads, Budget, Orderly;
      ghost var a := Sc();
      track := track.(dead := TopOver(track.stack, track.dead), stack := Below(track.stack),
                      log := track.log + [Unwound(id)]);
      BuryKeeps(a.s, S(), id);
      BuryStep(script, a, Sc(), id);
    }

    /** Completes a module that waits for nothing, then whoever waited for it. */
    method OnModuleComplete(id: nat) returns (thrown: Option<nat>)
      requires Inv(S(), {id}) && Fair(script, Sc()) && id in modules && modules[id].unresolved == 0
      requires !track.flying
      modifies this
      ensures Inv(S(), {}) && Fair(script, Sc()) && track.stack == old(track.stack)
      ensures Leads(old(Sc()), Sc(), {}) && Budget(Sc()) == Budget(old(Sc()))
      ensures id in modules && modules[id].isComplete
      ensures old(modules)[id].isComplete ==> thrown.None? && Sc() == old(Sc())
      ensures Calmer(old(left), old(modules), left, modules)
      ensures left.Size() == old(left.Size()) ==> thrown.None? && Still(old(Sc()), Sc())
      ensures Excused(script, Sc(), thrown)
      decreases left.Size(), 4, Incomplete(modules), 2
    {
      hide Inv, Core, Grows, Fair, Leads, Budget, Legal, IsOutcome, IsDisturbed;
      ghost var a, below := Sc(), track.stack;
      LeadsReflexive(a, {});
      if modules[id].isComplete {
        PivotDropped(a.s, id);
        return None;
      }
      var inverseDeps;
      thrown, inverseDeps := Deliver(id);
      ghost var b := Sc();
      LeadsGrows(a, b, {});
      if thrown.Some? {
        return;
      }
      assert Fewer(a.left, a.s.modules, left, modules, id);
      thrown := ReleaseAll(id, inverseDeps, below);
      LeadsTransitive(a, b, Sc(), {});
      LeadsGrows(b, Sc(), {});
      if thrown.None? {
        ghost var c := Sc();
        BegunStays(b.s, c.s, id);
        thrown := PlugAll(id, below);
        LeadsTransitive(a, c, Sc(), {});
        LeadsTransitive(b, c, Sc(), {});
        LeadsGrows(c, Sc(), {});
      }
      LeadsSteady(b, Sc(), {}, id);
    }

    /** What is needed in order to store the completed module m. */
    ghost predicate CanFinish(id: nat, m: Module)
      reads this
    {
      && IsFinal(S(), id, m) && IsExcusedError(script, Sc(), id, m)
      && MayEnd(script, Sc(), id, m.exports, m.error)
    }

    /** Runs the factory and stores the completed module. */
    method Deliver(id: nat) returns (thrown: Option<nat>, inverseDeps: seq<nat>)
      requires Inv(S(), {id}) && Fair(script, Sc()) && id in modules
      requires !track.flying
      requires !modules[id].isComplete && modules[id].unresolved == 0
      modifies this
      ensures Inv(S(), {}) && Fair(script, Sc())
      ensures Leads(old(Sc()), Sc(), {}) && Budget(Sc()) == Budget(old(Sc()))
      ensures id in modules && modules[id].isComplete && id in track.begun
      ensures track.stack == if thrown.Some? then old(track.stack) else Releasing(id, inverseDeps, old(track.stack))
      ensures Fewer(old(left), old(modules), left, modules, id)
      ensures left.Size() == old(left.Size()) ==> thrown.None? && Still(old(Sc()), Sc())
      ensures Excused(script, Sc(), thrown)
      decreases left.Size(), 4, Incomplete(modules), 1
    {
      hide Inv, Core, Grows, Fair, Leads, Budget, Legal, Orderly, IsFinal, IsDisturbed, MayEnd, IsExcusedError;
      hide IsPerformed;
      ghost var a, below := Sc(), track.stack;
      FairIsLegal(script, a);
      var m;
      m, thrown := Perform(id);
      ghost var c := Sc();
      inverseDeps := Conclude(id, m, thrown, below);
      LeadsTransitive(a, c, Sc(), {});
      DeliveredInOrder(script, a, c, Sc(), id, thrown);
      FairIsLegal(script, Sc());
    }

    /** From the beginning of a completion to the end of the factory. */
    method Perform(id: nat) returns (m: Module, thrown: Option<nat>)
      requires Inv(S(), {id}) && Legal(script, Sc()) && id in modules
      requires !track.flying
      requires !modules[id].isComplete && modules[id].unresolved == 0
      modifies this
      ensures Inv(S(), {}) && Legal(script, Sc()) && track.stack == Running(id, old(track.stack))
      ensures Leads(old(Sc()), Sc(), {}) && Budget(Sc()) == Budget(old(Sc()))
      ensures id in modules && modules[id].isComplete
      ensures (thrown.None? ==> CanFinish(id, m)) && id in track.begun
      ensures IsPerformed(script, old(track.log), track.log, id, thrown)
      ensures Fewer(old(left), old(modules), left, modules, id)
      ensures left.Size() == old(left.Size()) ==> thrown.None? && Still(old(Sc()), Sc())
      ensures Excused(script, Sc(), thrown)
      decreases left.Size(), 4, Incomplete(modules), 0
    {
      hide Inv, Core, Grows, Leads, Budget, Legal, IsBegin, IsCompletion, IsFinal, IsDisturbed, IsNext, MayEnd;
      hide IsExcusedError, IsReactionOf, IsPerformed;
      ghost var a := Sc();
      var reaction := Begin(id);
      ghost var b := Sc();
      BeginFacts(a.s, b.s, id, a.s.stack);
      InvIsCore(S(), {});
      RunningIsBegun(S(), {}, id);
      ghost var outcome;
      m, outcome, thrown := Complete(id, reaction);
      LeadsGrows(b, Sc(), {});
      LeadsTransitive(a, b, Sc(), {});
      PerformedInOrder(script, a, b, Sc(), id, reaction, thrown);
      if thrown.None? {
        MayBeStored(script, a, b, Sc(), id, reaction, m, outcome);
      }
    }

    /** Stores the module, unless an exception has left its factory. */
    method Conclude(id: nat, m: Module, thrown: Option<nat>, ghost below: Stack) returns (inverseDeps: seq<nat>)
      requires Inv(S(), {}) && Legal(script, Sc()) && track.stack == Running(id, below)
      requires id in modules && modules[id].isComplete
      requires thrown.None? ==> CanFinish(id, m)
      requires Excused(script, Sc(), thrown)
      modifies `modules, `inverse, `track
      ensures Inv(S(), {}) && Legal(script, Sc()) && Leads(old(Sc()), Sc(), {}) && Budget(Sc()) == Budget(old(Sc()))
      ensures Sc() == old(Sc()).(s := S())
      ensures track.notified == old(track.notified) && track.begun == old(track.begun)
      ensures modules.Keys == old(modules).Keys && forall x :: x in modules ==>
        modules[x].isComplete == old(modules)[x].isComplete
      ensures track.stack == if thrown.Some? then below else Releasing(id, inverseDeps, below)
      ensures thrown.Some? ==> track.log == old(track.log) + [Unwound(id)]
      ensures thrown.None? ==> track.dead == old(track.dead)
      ensures thrown.None? ==>
        exists exports, error :: track.log == old(track.log) + [Completed(id, exports, error)]
    {
      hide Inv, Core, Grows, Legal, Leads, Budget, IsFinish, IsBury, IsDisturbed, MayEnd, IsExcusedError, Orderly;
      ghost var c := Sc();
      inverseDeps := [];
      if thrown.Some? {
        Bury(id);
        BuryFacts(c.s, S(), id, below);
      } else {
        inverseDeps := Finish(id, m, below);
        FinishFacts(c.s, S(), id, m, below);
      }
    }

    /** Lets go of the modules that waited, one at a time, completing those that wait for nothing else. */
    method ReleaseAll(id: nat, inverseDeps: seq<nat>, ghost below: Stack) returns (thrown: Option<nat>)
      requires Inv(S(), {}) && Fair(script, Sc()) && track.stack == Releasing(id, inverseDeps, below)
      requires !track.flying
      modifies this
      ensures Inv(S(), {}) && Fair(script, Sc())
      ensures Leads(old(Sc()), Sc(), {}) && Budget(Sc()) == Budget(old(Sc()))
      ensures track.stack == if thrown.Some? then below else Releasing(id, [], below)
      ensures Calmer(old(left), old(modules), left, modules)
      ensures left.Size() == old(left.Size()) ==> thrown.None? && Still(old(Sc()), Sc())
      ensures Excused(script, Sc(), thrown)
      decreases left.Size(), 4, Incomplete(modules), 4
    {
      hide Inv, Core, Grows, Fair, Leads, Budget, Legal, Orderly, IsDisturbed;
      ghost var a := Sc();
      LeadsReflexive(a, {});
      thrown := None;
      var i := 0;
      while i < |inverseDeps|
        invariant 0 <= i <= |inverseDeps| && thrown.None? && !track.flying
        invariant Inv(S(), {}) && Fair(script, Sc()) && track.stack == Releasing(id, inverseDeps[i..], below)
        invariant Leads(a, Sc(), {}) && Budget(Sc()) == Budget(a)
        invariant Calmer(a.left, a.s.modules, left, modules)
        invariant left.Size() == old(left.Size()) ==> Still(a, Sc())
      {
        ghost var b := Sc();
        var x := inverseDeps[i];
        assert inverseDeps[i..][1..] == inverseDeps[i + 1..];
        thrown := ReleaseOne(id, x, inverseDeps[i + 1..], below);
        LeadsTransitive(a, b, Sc(), {});
        LeadsGrows(b, Sc(), {});
        if thrown.Some? {
          ghost var c := Sc();
          FairIsLegal(script, c);
          Bury(id);
          FairIsLegal(script, Sc());
          LeadsTransitive(a, c, Sc(), {});
          return;
        }
        i := i + 1;
      }
    }

    method ReleaseOne(id: nat, x: nat, ghost rest: seq<nat>, ghost below: Stack) returns (thrown: Option<nat>)
      requires Inv(S(), {}) && Fair(script, Sc()) && track.stack == Releasing(id, [x] + rest, below)
      requires !track.flying
      modifies this
      ensures Inv(S(), {}) && Fair(script, Sc()) && track.stack == Releasing(id, rest, below)
      ensures Leads(old(Sc()), Sc(), {}) && Budget(Sc()) == Budget(old(Sc()))
      ensures Calmer(old(left), old(modules), left, modules)
      ensures left.Size() == old(left.Size()) ==> thrown.None? && Still(old(Sc()), Sc())
      ensures Excused(script, Sc(), thrown)
      decreases left.Size(), 4, Incomplete(modules), 3
    {
      hide Inv, Core, Grows, Fair, Leads, Budget, IsDisturbed;
      ghost var a := Sc();
      InvIsCore(a.s, {});
      PendingIsDefined(a.s, {});
      assert ([x] + rest)[1..] == rest;
      CountDown(id, x, rest, below);
      ghost var b := Sc();
      assert Incomplete(modules) == Incomplete(a.s.modules);
      thrown := None;
      InvIsCore(b.s, {x});
      ModuleFacts(b.s, {x}, x);
      LeadsReflexive(b, {});
      if modules[x].unresolved == 0 {
        thrown := OnModuleComplete(x);
      } else {
        PivotDropped(b.s, x);
      }
      ReleasedIsSteady(a, b, Sc(), x);
    }

    method CountDown(id: nat, x: nat, ghost rest: seq<nat>, ghost below: Stack)
      requires Inv(S(), {}) && Fair(script, Sc()) && track.stack == Releasing(id, [x] + rest, below) && x in modules
      modifies `modules, `track
      ensures Inv(S(), {x}) && Fair(script, Sc()) && Budget(Sc()) == Budget(old(Sc()))
      ensures IsRelease(old(S()), S(), x) && Grows(old(S()), S()) && Sc() == old(Sc()).(s := S())
      ensures track.stack == Releasing(id, rest, below)
    {
      hide Inv, Core, Grows, Fair, Leads, Budget;
      ghost var a := Sc();
      assert ([x] + rest)[1..] == rest;
      modules := modules[x := modules[x].(unresolved := modules[x].unresolved - 1)];
      track := track.(stack := Releasing(id, rest, below));
      ReleaseKeeps(a.s, S(), x);
      InnerStep(script, a, Sc(), {x});
    }

    /** Hands the resources that were held for a completed plugin to it. */
    method PlugAll(id: nat, ghost below: Stack) returns (thrown: Option<nat>)
      requires Inv(S(), {}) && Fair(script, Sc()) && track.stack == Releasing(id, [], below) && id in track.begun
      requires !track.flying
      modifies this
      ensures Inv(S(), {}) && Fair(script, Sc()) && track.stack == below
      ensures Leads(old(Sc()), Sc(), {}) && Budget(Sc()) == Budget(old(Sc()))
      ensures Calmer(old(left), old(modules), left, modules)
      ensures left.Size() == old(left.Size()) ==> thrown.None? && Still(old(Sc()), Sc())
      ensures Excused(script, Sc(), thrown)
      decreases left.Size(), 3
    {
      hide Inv, Core, Grows, Fair, Leads, Budget, Legal, Orderly, RequestedExcept, IsDisturbed, AreResources;
      ghost var a := Sc();
      var resources := TakeResources(id, below);
      thrown := None;
      var i := 0;
      while i < |resources|
        invariant 0 <= i <= |resources| && thrown.None? && !track.flying
        invariant Inv(S(), {}) && Fair(script, Sc()) && track.stack == Plugging(resources[i..], below)
        invariant ArePluggable(resources, id)
        invariant Leads(a, Sc(), {}) && Budget(Sc()) == Budget(a)
        invariant Calmer(a.left, a.s.modules, left, modules)
        invariant left.Size() == old(left.Size()) ==> Still(a, Sc())
      {
        ghost var b := Sc();
        assert resources[i..] == [resources[i]] + resources[i + 1..];
        IsOneOf(track.declared, resources, id, i);
        thrown := PlugOne(id, resources[i], resources[i + 1..], below);
        LeadsTransitive(a, b, Sc(), {});
        LeadsGrows(b, Sc(), {});
        ResourcesStay(b.s, S(), resources, id);
        BegunStays(b.s, S(), id);
        if thrown.Some? {
          return;
        }
        i := i + 1;
      }
      ghost var e := Sc();
      track := track.(stack := below);
      PluggedKeeps(e.s, S());
      InnerStep(script, e, Sc(), {});
      LeadsTransitive(a, e, Sc(), {});
    }

    ghost predicate ArePluggable(resources: seq<Dependency>, id: nat)
      reads this
    {
      AreResources(track.declared, resources, id) && id in track.begun
    }

    method TakeResources(id: nat, ghost below: Stack) returns (resources: seq<Dependency>)
      requires Inv(S(), {}) && Fair(script, Sc()) && track.stack == Releasing(id, [], below) && id in track.begun
      modifies `inversePlugin, `track
      ensures Inv(S(), {}) && Fair(script, Sc())
      ensures Leads(old(Sc()), Sc(), {}) && Budget(Sc()) == Budget(old(Sc()))
      ensures resources == if id in old(inversePlugin) then old(inversePlugin)[id] else []
      ensures inversePlugin == old(inversePlugin) - {id} && ArePluggable(resources, id)
      ensures track.stack == Plugging(resources, below) && Sc() == old(Sc()).(s := S())
      ensures modules == old(modules) && Still(old(Sc()), Sc())
    {
      hide Inv, Core, Grows, Fair, Leads, Budget, IsResource;
      ghost var a := Sc();
      resources := if id in inversePlugin then inversePlugin[id] else [];
      InvIsCore(a.s, {});
      if id in inversePlugin {
        HeldAreResources(a.s, {}, id);
      }
      inversePlugin := inversePlugin - {id};
      track := track.(stack := Plugging(resources, below));
      PlugsKeeps(a.s, S());
      InnerStep(script, a, Sc(), {});
    }

    method PlugOne(id: nat, dep: Dependency, ghost rest: seq<Dependency>, ghost below: Stack)
        returns (thrown: Option<nat>)
      requires Inv(S(), {}) && Fair(script, Sc()) && track.stack == Plugging([dep] + rest, below)
      requires !track.flying
      requires IsResource(track.declared, dep, id) && id in track.begun
      modifies this
      ensures Inv(S(), {}) && Fair(script, Sc())
      ensures Leads(old(Sc()), Sc(), {}) && Budget(Sc()) == Budget(old(Sc()))
      ensures track.stack == if thrown.Some? then below else Plugging(rest, below)
      ensures Calmer(old(left), old(modules), left, modules)
      ensures left.Size() == old(left.Size()) ==> thrown.None? && Still(old(Sc()), Sc())
      ensures Excused(script, Sc(), thrown)
      decreases left.Size(), 3, 0
    {
      hide Inv, Core, Grows, Fair, Leads, Budget, Legal, Orderly, RequestedExcept, IsDisturbed;
      ghost var b := Sc();
      track := track.(stack := Plugging(rest, below));
      assert ([dep] + rest)[1..] == rest;
      PlugKeeps(b.s, S(), dep);
      InnerStep(script, b, Sc(), {});
      ghost var c := Sc();
      thrown := LoadPluginDependency(dep);
      LeadsTransitive(b, c, Sc(), {});
      LeadsGrows(c, Sc(), {});
      if thrown.Some? {
        ghost var d := Sc();
        FairIsLegal(script, d);
        Bury(id);
        FairIsLegal(script, Sc());
        LeadsTransitive(b, d, Sc(), {});
      }
    }
  }
}
