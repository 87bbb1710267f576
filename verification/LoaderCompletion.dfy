/** Steps of completing, failing and releasing modules; each keeps the invariant of LoaderState. */
module LoaderCompletion {
  import opened Basics
  import opened Graphs
  import opened LoaderState
  import opened LoaderSteps

  // ---------- onDependencyError on one module ----------

  ghost predicate IsNotify(s: State, t: State, x: nat, err: Error) {
    && x in s.modules
    && t == s.(modules := s.modules[x := s.modules[x].(isComplete := true, error := Some(err))],
               notified := s.notified + {x},
               log := s.log + [DependencyError(x)])
  }

  lemma NotifyKeeps(s: State, t: State, x: nat, err: Error, pivot: set<nat>)
    requires Inv(s, pivot) && IsNotify(s, t, x, err)
    ensures Inv(t, pivot - {x}) && Grows(s, t)
  {
    hide IdsOk, StatusOk, ListsOk, CountedOk, ProgressOk, SettledOk, BrokenOk, NoWaitCycle, PluginsOk;
    hide HistoryOk, RequestedOk, DefsOk, UnwoundOk, Grows;
    NotifyStatus(s, t, x, err);
    NotifyLists(s, t, x, err);
    NotifyCounts(s, t, x, err, pivot);
    NotifySettles(s, t, x, err);
    NotifyRest(s, t, x, err);
    hide IsNotify;
  }

  lemma NotifyRest(s: State, t: State, x: nat, err: Error)
    requires StatusOk(s) && HistoryOk(s) && DefsOk(s) && UnwoundOk(s) && BrokenOk(s) && RequestedOk(s)
    requires IsNotify(s, t, x, err)
    ensures HistoryOk(t) && DefsOk(t) && UnwoundOk(t) && BrokenOk(t) && RequestedOk(t) && Grows(s, t)
  {
    hide StatusOk, BrokenOk, HistoryOk, RequestedOk, DefsOk, UnwoundOk;
    NotifyHistory(s, t, x, err);
    NotifyDefs(s, t, x, err);
    BrokenFrame(s, t);
    RequestedFrame(s, t);
  }

  lemma NotifyDefs(s: State, t: State, x: nat, err: Error)
    requires DefsOk(s) && UnwoundOk(s) && IsNotify(s, t, x, err)
    ensures DefsOk(t) && UnwoundOk(t)
  {
    hide DefsOk, UnwoundOk;
    DefsFrame(s, t);
    UnwoundFrame(s, t);
  }

  lemma NotifyHistory(s: State, t: State, x: nat, err: Error)
    requires StatusOk(s) && HistoryOk(s) && IsNotify(s, t, x, err)
    ensures HistoryOk(t)
  {
    EndedAreStored(s);
    hide StatusOk, HistoryOk;
    AppendKeeps(s, t, DependencyError(x));
  }

  lemma EndedAreStored(s: State)
    requires StatusOk(s)
    ensures s.ended <= s.modules.Keys
  {
  }

  lemma NotifyStatus(s: State, t: State, x: nat, err: Error)
    requires StatusOk(s) && PluginsOk(s) && IsNotify(s, t, x, err)
    ensures StatusOk(t) && PluginsOk(t)
  {
  }

  lemma NotifyLists(s: State, t: State, x: nat, err: Error)
    requires IdsOk(s) && ListsOk(s) && IsNotify(s, t, x, err)
    ensures IdsOk(t) && ListsOk(t)
  {
  }

  lemma NotifyCounts(s: State, t: State, x: nat, err: Error, pivot: set<nat>)
    requires CountedOk(s) && ProgressOk(s, pivot) && IsNotify(s, t, x, err)
    ensures CountedOk(t) && ProgressOk(t, pivot - {x})
  {
  }

  lemma NotifySettles(s: State, t: State, x: nat, err: Error)
    requires SettledOk(s) && StatusOk(s) && IsNotify(s, t, x, err)
    ensures SettledOk(t)
  {
    SettledFrame(s, t);
  }

  const PLACEHOLDER: Definition := Definition([], Factory, false)

  /** A failed script leaves behind a module without dependencies. */
  ghost predicate IsPlaceholder(s: State, t: State, id: nat, m: Module) {
    && id !in s.modules && id < s.nextId && IsNewModule(id, PLACEHOLDER, m)
    && t == s.(modules := s.modules[id := m], declared := s.declared[id := []], defs := s.defs[id := PLACEHOLDER])
  }

  lemma PlaceholderKeeps(s: State, t: State, id: nat, m: Module)
    requires Inv(s, {}) && IsPlaceholder(s, t, id, m)
    ensures Inv(t, {id}) && Grows(s, t)
  {
    hide IdsOk, StatusOk, ListsOk, CountedOk, ProgressOk, SettledOk, BrokenOk, NoWaitCycle, PluginsOk;
    hide HistoryOk, RequestedOk, DefsOk, UnwoundOk;
    hide Grows;
    PlaceholderStatus(s, t, id, m);
    PlaceholderPlugins(s, t, id, m);
    PlaceholderLists(s, t, id, m);
    PlaceholderCounts(s, t, id, m);
    PlaceholderSettles(s, t, id, m);
    PlaceholderDefs(s, t, id, m);
    PlaceholderRest(s, t, id, m);
    hide IsPlaceholder;
  }

  lemma PlaceholderStatus(s: State, t: State, id: nat, m: Module)
    requires StatusOk(s) && IsPlaceholder(s, t, id, m)
    ensures StatusOk(t)
    ensures id !in s.declared
  {
  }

  lemma PlaceholderPlugins(s: State, t: State, id: nat, m: Module)
    requires PluginsOk(s) && id !in s.declared && IsPlaceholder(s, t, id, m)
    ensures PluginsOk(t)
  {
    ResourcesGrow(s, t);
    hide IsPlugin, IsResource;
    forall p | p in s.inversePlugin ensures IsPlugin(t.declared, p) {
      PluginsGrow(s.declared, t.declared, p);
    }
  }

  lemma PlaceholderLists(s: State, t: State, id: nat, m: Module)
    requires IdsOk(s) && ListsOk(s) && IsPlaceholder(s, t, id, m)
    ensures IdsOk(t) && ListsOk(t)
  {
    StackOkGrows(Whole(s), s.declared, t.declared);
  }

  lemma PlaceholderCounts(s: State, t: State, id: nat, m: Module)
    requires IdsOk(s) && ListsOk(s) && StatusOk(s) && CountedOk(s) && ProgressOk(s, {}) && IsPlaceholder(s, t, id, m)
    ensures CountedOk(t) && ProgressOk(t, {id})
  {
    StrangerIsNotCounted(s, id);
    hide ListsOk, StatusOk, IdsOk, Occurrences, Owed, Resolvings, Whole;
    assert CountedOk(t);
  }

  lemma PlaceholderSettles(s: State, t: State, id: nat, m: Module)
    requires StatusOk(s) && SettledOk(s) && IsPlaceholder(s, t, id, m)
    ensures SettledOk(t)
  {
    StackOkGrows(Whole(s), s.declared, t.declared);
    SettledFrame(s, t);
  }

  lemma PlaceholderDefs(s: State, t: State, id: nat, m: Module)
    requires DefsOk(s) && StatusOk(s) && IsPlaceholder(s, t, id, m)
    ensures DefsOk(t) && id !in s.defs
  {
    hide DefsOk;
    StrangerNotEnded(s, id);
    DefsDeclare(s, t, id, PLACEHOLDER);
  }

  lemma PlaceholderRest(s: State, t: State, id: nat, m: Module)
    requires BrokenOk(s) && HistoryOk(s) && UnwoundOk(s) && RequestedOk(s)
    requires id !in s.declared && id !in s.defs && IsPlaceholder(s, t, id, m)
    ensures BrokenOk(t) && HistoryOk(t) && UnwoundOk(t) && RequestedOk(t) && Grows(s, t)
  {
    hide BrokenOk, HistoryOk, UnwoundOk, RequestedOk;
    BrokenFrame(s, t);
    HistoryFrame(s, t);
    UnwoundFrame(s, t);
    RequestedFrame(s, t);
  }

  // ---------- a resolve loop is left ----------

  ghost predicate IsLeave(s: State, t: State, id: nat) {
    && s.stack.Resolving? && s.stack.id == id
    && (s.stack.left == 0 || id in s.notified)
    && t == s.(stack := s.stack.below)
  }

  lemma LeaveKeeps(s: State, t: State, id: nat)
    requires Inv(s, {}) && IsLeave(s, t, id)
    ensures Inv(t, {id}) && Grows(s, t)
  {
    hide IdsOk, StatusOk, ListsOk, CountedOk, ProgressOk, SettledOk, BrokenOk, NoWaitCycle, PluginsOk;
    hide HistoryOk, RequestedOk, DefsOk, UnwoundOk;
    LeaveStatus(s, t, id);
    LeaveLists(s, t, id);
    LeaveCounts(s, t, id);
    LeaveSettles(s, t, id);
    QuietFrame(s, t);
    RequestedFrame(s, t);
  }

  lemma LeaveStatus(s: State, t: State, id: nat)
    requires StatusOk(s) && PluginsOk(s) && IsLeave(s, t, id)
    ensures StatusOk(t) && PluginsOk(t)
  {
  }

  lemma LeaveLists(s: State, t: State, id: nat)
    requires IdsOk(s) && ListsOk(s) && IsLeave(s, t, id)
    ensures IdsOk(t) && ListsOk(t)
  {
    assert forall x :: Resolvings(Whole(t), x) <= Resolvings(Whole(s), x);
  }

  lemma LeaveCounts(s: State, t: State, id: nat)
    requires CountedOk(s) && ProgressOk(s, {}) && IsLeave(s, t, id)
    ensures CountedOk(t) && ProgressOk(t, {id})
  {
  }

  lemma LeaveSettles(s: State, t: State, id: nat)
    requires SettledOk(s) && CountedOk(s) && IsLeave(s, t, id)
    ensures SettledOk(t)
  {
    if s.stack.left > 0 {
      NotBegunWhileResolving(s, id);
    }
    SettledFrame(s, t);
  }

  // ---------- an exception cuts short what is on top of the stack ----------

  ghost function Below(stack: Stack): Stack
    requires stack != Idle
  {
    stack.below
  }

  /** The top of a stack alone, over another stack. */
  ghost function TopOver(stack: Stack, rest: Stack): Stack
    requires stack != Idle
  {
    stack.(below := rest)
  }

  ghost predicate IsBury(s: State, t: State, id: nat) {
    && s.stack != Idle
    && t == s.(stack := Below(s.stack), dead := TopOver(s.stack, s.dead), log := s.log + [Unwound(id)])
  }

  /** What counts on the stack stays the same when its top is moved to the activities that have been cut short. */
  lemma BuriedStack(s: State, t: State, id: nat)
    requires IsBury(s, t, id)
    ensures forall x :: Owed(Whole(t), x) == Owed(Whole(s), x)
    ensures forall x :: Runnings(Whole(t), x) == Runnings(Whole(s), x)
    ensures forall x :: Resolvings(Whole(t), x) == Resolvings(Whole(s), x)
    ensures forall x :: IsReleasing(Whole(t), x) == IsReleasing(Whole(s), x)
    ensures forall x :: IsPlugging(Whole(t), x) == IsPlugging(Whole(s), x)
    ensures StackOk(Whole(s), s.declared) ==> StackOk(Whole(t), s.declared)
  {
    forall x: nat
      ensures Owed(Whole(t), x) == Owed(Whole(s), x)
      ensures Runnings(Whole(t), x) == Runnings(Whole(s), x)
      ensures Resolvings(Whole(t), x) == Resolvings(Whole(s), x)
      ensures IsReleasing(Whole(t), x) == IsReleasing(Whole(s), x)
      ensures IsPlugging(Whole(t), x) == IsPlugging(Whole(s), x)
    {
      BuriedFor(s.stack, s.dead, x, s.declared);
    }
    BuriedFor(s.stack, s.dead, 0, s.declared);
  }

  lemma BuriedFor(stack: Stack, dead: Stack, x: nat, declared: map<nat, seq<Dependency>>)
    requires stack != Idle
    ensures Owed(Over(Below(stack), TopOver(stack, dead)), x) == Owed(Over(stack, dead), x)
    ensures Runnings(Over(Below(stack), TopOver(stack, dead)), x) == Runnings(Over(stack, dead), x)
    ensures Resolvings(Over(Below(stack), TopOver(stack, dead)), x) == Resolvings(Over(stack, dead), x)
    ensures IsReleasing(Over(Below(stack), TopOver(stack, dead)), x) == IsReleasing(Over(stack, dead), x)
    ensures IsPlugging(Over(Below(stack), TopOver(stack, dead)), x) == IsPlugging(Over(stack, dead), x)
    ensures StackOk(Over(stack, dead), declared) ==> StackOk(Over(Below(stack), TopOver(stack, dead)), declared)
  {
    OverSplits(stack, dead, x, 0, declared);
    OverSplits(Below(stack), TopOver(stack, dead), x, 0, declared);
  }

  lemma BuriedVisits(stack: Stack, dead: Stack, x: nat, all: nat, declared: map<nat, seq<Dependency>>)
    requires stack != Idle && Resolvings(Over(stack, dead), x) <= 1
    ensures Visited(Over(Below(stack), TopOver(stack, dead)), x, all) == Visited(Over(stack, dead), x, all)
  {
    OverSplits(stack, dead, x, all, declared);
    OverSplits(Below(stack), TopOver(stack, dead), x, all, declared);
    if stack.Resolving? && stack.id == x {
      VisitedWhenResolved(Below(stack), x, stack.visited);
    }
  }

  /** The one whose resolve loop is cut short is the pivot. */
  ghost function CutShort(stack: Stack): set<nat> {
    if stack.Resolving? then {stack.id} else {}
  }

  lemma BuryKeeps(s: State, t: State, id: nat)
    requires Inv(s, {}) && IsBury(s, t, id)
    ensures Inv(t, CutShort(s.stack)) && Grows(s, t)
  {
    hide IdsOk, StatusOk, ListsOk, CountedOk, ProgressOk, SettledOk, BrokenOk, NoWaitCycle, PluginsOk;
    hide HistoryOk, RequestedOk, DefsOk, UnwoundOk;
    BuryStatus(s, t, id);
    BuryCounts(s, t, id);
    BurySettles(s, t, id);
    BuriedStack(s, t, id);
    AppendKeeps(s, t, Unwound(id));
    BrokenFrame(s, t);
    DefsFrame(s, t);
    BuryUnwinds(s, t, id);
    RequestedFrame(s, t);
  }

  lemma BuryUnwinds(s: State, t: State, id: nat)
    requires IsBury(s, t, id)
    ensures UnwoundOk(t)
  {
    assert t.log[|s.log|] == Unwound(id);
  }

  lemma BuryStatus(s: State, t: State, id: nat)
    requires StatusOk(s) && PluginsOk(s) && IdsOk(s) && ListsOk(s) && IsBury(s, t, id)
    ensures StatusOk(t) && PluginsOk(t) && IdsOk(t) && ListsOk(t)
    ensures s.ended <= t.modules.Keys
  {
    BuriedStack(s, t, id);
    hide Runnings, Resolvings, IsReleasing, StackOk;
  }

  lemma BuryCounts(s: State, t: State, id: nat)
    requires CountedOk(s) && ProgressOk(s, {}) && IsBury(s, t, id)
    ensures CountedOk(t) && ProgressOk(t, CutShort(s.stack))
  {
    BuriedStack(s, t, id);
    hide Owed, Whole;
  }

  lemma BurySettles(s: State, t: State, id: nat)
    requires StatusOk(s) && IdsOk(s) && SettledOk(s) && IsBury(s, t, id)
    ensures SettledOk(t)
  {
    forall x, all: nat ensures Visited(Whole(t), x, all) == Visited(Whole(s), x, all) {
      BuriedVisits(s.stack, s.dead, x, all, s.declared);
    }
    BuriedFor(s.stack, s.dead, 0, s.declared);
    hide Visited, StackOk, Whole;
    SettledFrame(s, t);
  }

  // ---------- the pivot ----------

  /** The pivot is needed no longer once its module is complete or is seen to wait for something. */
  lemma PivotDropped(s: State, x: nat)
    requires Inv(s, {x}) && x in s.modules && (s.modules[x].isComplete || s.modules[x].unresolved > 0)
    ensures Inv(s, {})
  {
    hide IdsOk, StatusOk, ListsOk, CountedOk, ProgressOk, SettledOk, BrokenOk, NoWaitCycle, PluginsOk;
    hide HistoryOk, RequestedOk, DefsOk, UnwoundOk;
    PivotProgress(s, x);
  }

  lemma PivotProgress(s: State, x: nat)
    requires ProgressOk(s, {x}) && x in s.modules && (s.modules[x].isComplete || s.modules[x].unresolved > 0)
    ensures ProgressOk(s, {})
  {
  }

  // ---------- Module.complete ----------

  /** The value handed to the factory of module id for one of its dependencies. */
  function ArgumentFor(modules: map<nat, Module>, id: nat, dep: Dependency): Argument
    requires id in modules
  {
    match dep
    case Exports => Val(modules[id].exports)
    case ModuleInfo => ModuleArg(id)
    case Require => RequireArg(id)
    case _ => if dep.Id() in modules then Val(modules[dep.Id()].exports) else NullArg
  }

  ghost predicate ReadyToBegin(s: State, id: nat, args: seq<Argument>) {
    && id in s.modules && !s.modules[id].isComplete && s.modules[id].unresolved == 0
    && id in s.declared && |args| == |s.declared[id]|
    && forall j :: 0 <= j < |args| ==> args[j] == ArgumentFor(s.modules, id, s.declared[id][j])
  }

  /** A module whose counter is down to zero waits for nothing: each dependency has begun or was dropped. */
  lemma AllSettledWhenPaid(s: State, id: nat, j: nat)
    requires IdsOk(s) && StatusOk(s) && CountedOk(s) && SettledOk(s)
    requires id in s.modules && !s.modules[id].isComplete && s.modules[id].unresolved == 0
    requires j < |s.declared[id]| && !s.declared[id][j].Builtin()
    ensures s.declared[id][j].Id() in s.begun || (id, s.declared[id][j].Id()) in s.broken
  {
    var d := s.declared[id][j].Id();
    VisitedWhenPaid(Whole(s), s.declared, id);
    assert Settled(s, id, d);
    if id in Waiting(s.inverse, d) {
      OccurrencesOfMember(s.inverse, id, d, s.nextId);
    }
  }

  lemma SettledIsDefined(s: State, id: nat, d: nat)
    requires StatusOk(s) && BrokenOk(s) && (d in s.begun || (id, d) in s.broken)
    ensures d in s.modules
  {
    if (id, d) in s.broken {
      var next := FirstStep(DeclaredGraph(s.declared), d, id);
    }
  }

  lemma ArgumentFits(s: State, id: nat, dep: Dependency, arg: Argument)
    requires StatusOk(s) && HistoryOk(s) && !dep.Builtin() && dep.Id() in s.modules
    requires dep.Id() in s.begun || (id, dep.Id()) in s.broken
    requires arg == Val(s.modules[dep.Id()].exports)
    ensures ArgumentOk(s.log, |s.log|, id, dep, arg, s.broken)
  {
    var d := dep.Id();
    if d in s.begun {
      var k :| BeginsAt(s.log, k, d);
    }
    if d in s.ended {
      var k :| EndsAt(s.log, k, d);
    }
  }

  lemma CallIsOk(s: State, id: nat, args: seq<Argument>)
    requires IdsOk(s) && StatusOk(s) && CountedOk(s) && SettledOk(s) && BrokenOk(s) && HistoryOk(s)
    requires ReadyToBegin(s, id, args)
    ensures CallOk(s.log, |s.log|, id, args, s.declared, s.broken)
  {
    forall j | 0 <= j < |args| ensures ArgumentOk(s.log, |s.log|, id, s.declared[id][j], args[j], s.broken) {
      var dep := s.declared[id][j];
      if !dep.Builtin() {
        AllSettledWhenPaid(s, id, j);
        SettledIsDefined(s, id, dep.Id());
        ArgumentFits(s, id, dep, args[j]);
      }
    }
  }

  ghost predicate IsBegin(s: State, t: State, id: nat, args: seq<Argument>) {
    && ReadyToBegin(s, id, args)
    && t == s.(modules := s.modules[id := s.modules[id].(isComplete := true)],
               begun := s.begun + {id},
               log := s.log + [Completing(id, args, s.modules[id].callback)],
               stack := Running(id, s.stack))
  }

  lemma BeginKeeps(s: State, t: State, id: nat, args: seq<Argument>)
    requires Inv(s, {id}) && IsBegin(s, t, id, args)
    ensures Inv(t, {}) && Grows(s, t)
  {
    hide IdsOk, StatusOk, ListsOk, CountedOk, ProgressOk, SettledOk, BrokenOk, NoWaitCycle, PluginsOk;
    hide HistoryOk, RequestedOk, DefsOk, UnwoundOk;
    CallIsOk(s, id, args);
    BeginStatus(s, t, id, args);
    BeginLists(s, t, id, args);
    BeginCounts(s, t, id, args);
    BeginSettles(s, t, id, args);
    AppendKeeps(s, t, Completing(id, args, s.modules[id].callback));
    BeginDefs(s, t, id, args);
    UnwoundFrame(s, t);
    BrokenFrame(s, t);
    RequestedFrame(s, t);
  }

  lemma BeginDefs(s: State, t: State, id: nat, args: seq<Argument>)
    requires DefsOk(s) && StatusOk(s) && IsBegin(s, t, id, args)
    ensures DefsOk(t)
  {
    assert id !in s.ended;
    DefsFrame(s, t);
  }

  lemma BeginStatus(s: State, t: State, id: nat, args: seq<Argument>)
    requires StatusOk(s) && PluginsOk(s) && IsBegin(s, t, id, args)
    ensures StatusOk(t) && PluginsOk(t)
    ensures id !in s.begun && id !in s.notified && s.ended <= s.modules.Keys
  {
    BeginPlugins(s, t, id, args);
    hide PluginsOk;
  }

  lemma BeginPlugins(s: State, t: State, id: nat, args: seq<Argument>)
    requires PluginsOk(s) && IsBegin(s, t, id, args)
    ensures PluginsOk(t)
  {
  }

  lemma BeginLists(s: State, t: State, id: nat, args: seq<Argument>)
    requires IdsOk(s) && ListsOk(s) && IsBegin(s, t, id, args)
    ensures IdsOk(t) && ListsOk(t)
  {
  }

  lemma BeginCounts(s: State, t: State, id: nat, args: seq<Argument>)
    requires StatusOk(s) && CountedOk(s) && ProgressOk(s, {id}) && IsBegin(s, t, id, args)
    ensures CountedOk(t) && ProgressOk(t, {})
  {
  }

  lemma BeginSettles(s: State, t: State, id: nat, args: seq<Argument>)
    requires SettledOk(s) && IsBegin(s, t, id, args) && id !in s.notified
    ensures SettledOk(t)
  {
    SettledFrame(s, t);
  }

  /** The factory has returned; the list of waiting modules is taken and cleared. */
  ghost predicate IsFinish(s: State, t: State, id: nat, m: Module) {
    && s.stack.Running? && s.stack.id == id && id in s.modules && id in s.defs
    && IsExportOf(s.defs[id].callback, id, m.exports)
    && m.dependencies == None && m.callback.NoCallback? && !m.hasErrorback && m.isComplete
    && m.unresolved == s.modules[id].unresolved
    && (s.modules[id].error.Some? ==> m.error.Some?)
    && t == s.(modules := s.modules[id := m],
               ended := s.ended + {id},
               log := s.log + [Completed(id, m.exports, m.error)],
               inverse := s.inverse - {id},
               stack := Releasing(id, Waiting(s.inverse, id), s.stack.below))
  }

  lemma FinishKeeps(s: State, t: State, id: nat, m: Module)
    requires Inv(s, {}) && IsFinish(s, t, id, m)
    ensures Inv(t, {}) && Grows(s, t)
  {
    hide IdsOk, StatusOk, ListsOk, CountedOk, ProgressOk, SettledOk, BrokenOk, NoWaitCycle, PluginsOk;
    hide HistoryOk, RequestedOk, DefsOk, UnwoundOk;
    FinishStatus(s, t, id, m);
    FinishPlugins(s, t, id, m);
    FinishLists(s, t, id, m);
    FinishCounts(s, t, id, m);
    FinishSettles(s, t, id, m);
    AppendKeeps(s, t, Completed(id, m.exports, m.error));
    FinishDefs(s, t, id, m);
    UnwoundFrame(s, t);
    BrokenFrame(s, t);
    FewerWaitCycles(s.inverse, t.inverse);
    FinishRequests(s, t, id, m);
  }

  /** On the stack a running factory gives way to the release of the modules that wait. */
  lemma FinishOnStack(s: State, t: State, id: nat, m: Module)
    requires IsFinish(s, t, id, m)
    ensures forall x :: Runnings(Whole(s), x) == Runnings(Whole(t), x) + if x == id then 1 else 0
    ensures forall x :: Resolvings(Whole(t), x) == Resolvings(Whole(s), x)
    ensures forall x :: Resolvings(t.stack, x) == Resolvings(s.stack, x)
    ensures forall x :: IsReleasing(Whole(t), x) <==> x == id || IsReleasing(Whole(s), x)
    ensures forall x :: IsPlugging(Whole(t), x) == IsPlugging(Whole(s), x)
  {
  }

  lemma FinishStatus(s: State, t: State, id: nat, m: Module)
    requires StatusOk(s) && IsFinish(s, t, id, m)
    ensures StatusOk(t)
    ensures id in s.begun && id !in s.ended && s.ended <= s.modules.Keys
  {
    FinishOnStack(s, t, id, m);
    hide Runnings, Whole;
    assert Runnings(Whole(s), id) > 0;
  }

  lemma FinishPlugins(s: State, t: State, id: nat, m: Module)
    requires PluginsOk(s) && IsFinish(s, t, id, m)
    ensures PluginsOk(t)
  {
    FinishOnStack(s, t, id, m);
    hide IsReleasing, Whole, IsPlugin, IsResource;
  }

  lemma FinishDefs(s: State, t: State, id: nat, m: Module)
    requires DefsOk(s) && IsFinish(s, t, id, m)
    ensures DefsOk(t)
  {
  }

  lemma FinishStackOk(s: State, t: State, id: nat, m: Module)
    requires IsFinish(s, t, id, m) && StackOk(Whole(s), s.declared)
    requires forall d, x :: x in Waiting(s.inverse, d) ==> x in s.declared
    ensures StackOk(Whole(t), t.declared)
  {
  }

  lemma FinishLists(s: State, t: State, id: nat, m: Module)
    requires IdsOk(s) && ListsOk(s) && IsFinish(s, t, id, m)
    ensures IdsOk(t) && ListsOk(t)
  {
    FinishOnStack(s, t, id, m);
    FinishStackOk(s, t, id, m);
    hide Resolvings, Whole, StackOk;
    assert forall d, x :: x in Waiting(t.inverse, d) ==> x in Waiting(s.inverse, d);
  }

  lemma FinishOwes(s: State, t: State, id: nat, m: Module, x: nat)
    requires (forall d :: d in s.inverse ==> d < s.nextId) && IsFinish(s, t, id, m)
    ensures Occurrences(t.inverse, x, t.nextId) + Owed(Whole(t), x)
      == Occurrences(s.inverse, x, s.nextId) + Owed(Whole(s), x)
  {
    OccurrencesChange(s.inverse, t.inverse, x, id, s.nextId);
  }

  lemma FinishCounts(s: State, t: State, id: nat, m: Module)
    requires IdsOk(s) && StatusOk(s) && CountedOk(s) && ProgressOk(s, {}) && IsFinish(s, t, id, m)
    ensures CountedOk(t) && ProgressOk(t, {})
  {
    forall x
      ensures Occurrences(t.inverse, x, t.nextId) + Owed(Whole(t), x)
        == Occurrences(s.inverse, x, s.nextId) + Owed(Whole(s), x)
    {
      FinishOwes(s, t, id, m, x);
    }
    hide IdsOk;
    assert forall x :: Resolvings(t.stack, x) == Resolvings(s.stack, x);
  }

  lemma FinishSettles(s: State, t: State, id: nat, m: Module)
    requires IdsOk(t) && SettledOk(s) && StatusOk(s) && IsFinish(s, t, id, m)
    ensures SettledOk(t)
  {
    assert Runnings(Whole(s), id) > 0;
    SettledFrame(s, t);
  }

  lemma FewerWaitCycles(g: Graph, h: Graph)
    requires NoWaitCycle(g) && SubGraph(h, g)
    ensures NoWaitCycle(h)
  {
    var rank :| Ranked(g, rank);
    assert Ranked(h, rank);
  }

  lemma FinishRequests(s: State, t: State, id: nat, m: Module)
    requires RequestedOk(s) && IsFinish(s, t, id, m)
    ensures RequestedOk(t)
  {
    forall d | Waiting(t.inverse, d) != [] ensures Requested(t, d) {
      assert Requested(s, d);
      if HeldByPlugin(s, d) { assert HeldByPlugin(t, d); }
    }
  }

  // ---------- releasing the modules that waited ----------

  ghost predicate IsRelease(s: State, t: State, x: nat) {
    && s.stack.Releasing? && s.stack.pending != [] && s.stack.pending[0] == x && x in s.modules
    && t == s.(modules := s.modules[x := s.modules[x].(unresolved := s.modules[x].unresolved - 1)],
               stack := s.stack.(pending := s.stack.pending[1..]))
  }

  lemma ReleaseKeeps(s: State, t: State, x: nat)
    requires Inv(s, {}) && IsRelease(s, t, x)
    ensures Inv(t, {x}) && Grows(s, t)
  {
    hide IdsOk, StatusOk, ListsOk, CountedOk, ProgressOk, SettledOk, BrokenOk, NoWaitCycle, PluginsOk;
    hide HistoryOk, RequestedOk, DefsOk, UnwoundOk;
    ReleaseStatus(s, t, x);
    ReleasePlugins(s, t, x);
    ReleaseLists(s, t, x);
    ReleaseCounts(s, t, x);
    ReleaseSettles(s, t, x);
    ReleaseRest(s, t, x);
    hide IsRelease, Grows;
  }

  lemma ReleaseRest(s: State, t: State, x: nat)
    requires BrokenOk(s) && HistoryOk(s) && DefsOk(s) && UnwoundOk(s) && RequestedOk(s) && IsRelease(s, t, x)
    ensures BrokenOk(t) && HistoryOk(t) && DefsOk(t) && UnwoundOk(t) && RequestedOk(t) && Grows(s, t)
  {
    hide BrokenOk, HistoryOk, DefsOk, UnwoundOk, RequestedOk;
    QuietFrame(s, t);
    RequestedFrame(s, t);
  }

  lemma ReleaseOnStack(s: State, t: State, x: nat)
    requires IsRelease(s, t, x)
    ensures forall y :: Runnings(Whole(t), y) == Runnings(Whole(s), y)
    ensures forall y :: Resolvings(Whole(t), y) == Resolvings(Whole(s), y)
    ensures forall y :: Resolvings(t.stack, y) == Resolvings(s.stack, y)
    ensures forall y :: IsReleasing(Whole(t), y) == IsReleasing(Whole(s), y)
    ensures forall y :: IsPlugging(Whole(t), y) == IsPlugging(Whole(s), y)
    ensures forall y :: Owed(Whole(s), y) == Owed(Whole(t), y) + if y == x then 1 else 0
    ensures StackOk(Whole(s), s.declared) ==> StackOk(Whole(t), s.declared)
  {
    forall y ensures Owed(Whole(s), y) == Owed(Whole(t), y) + if y == x then 1 else 0 {
      CountHead(s.stack.pending, y);
    }
  }

  lemma ReleaseStatus(s: State, t: State, x: nat)
    requires StatusOk(s) && IsRelease(s, t, x)
    ensures StatusOk(t)
  {
    ReleaseOnStack(s, t, x);
    hide Runnings, Whole;
  }

  lemma ReleasePlugins(s: State, t: State, x: nat)
    requires PluginsOk(s) && IsRelease(s, t, x)
    ensures PluginsOk(t)
  {
    ReleaseOnStack(s, t, x);
    hide IsReleasing, Whole, IsPlugin, IsResource;
  }

  lemma ReleaseLists(s: State, t: State, x: nat)
    requires IdsOk(s) && ListsOk(s) && IsRelease(s, t, x)
    ensures IdsOk(t) && ListsOk(t)
  {
    ReleaseOnStack(s, t, x);
    hide Resolvings, Whole, StackOk;
  }

  lemma ReleaseCounts(s: State, t: State, x: nat)
    requires CountedOk(s) && ProgressOk(s, {}) && IsRelease(s, t, x)
    ensures CountedOk(t) && ProgressOk(t, {x})
  {
    ReleaseOnStack(s, t, x);
    hide Owed, Whole, Resolvings;
  }

  lemma ReleaseSettles(s: State, t: State, x: nat)
    requires StatusOk(s) && SettledOk(s) && IsRelease(s, t, x)
    ensures SettledOk(t)
  {
    SettledFrame(s, t);
  }

  /** Everyone has been released; the resources held for the completed plugin are taken. */
  ghost predicate IsPlugs(s: State, t: State) {
    && s.stack.Releasing? && s.stack.pending == []
    && var id := s.stack.id;
      t == s.(inversePlugin := s.inversePlugin - {id},
              stack := Plugging(if id in s.inversePlugin then s.inversePlugin[id] else [], s.stack.below))
  }

  lemma PlugsKeeps(s: State, t: State)
    requires Inv(s, {}) && IsPlugs(s, t)
    ensures Inv(t, {}) && Grows(s, t)
  {
    hide IdsOk, StatusOk, ListsOk, CountedOk, ProgressOk, SettledOk, BrokenOk, NoWaitCycle, PluginsOk;
    hide HistoryOk, RequestedOk, DefsOk, UnwoundOk;
    PlugsStatus(s, t);
    PlugsSettles(s, t);
    PlugsRequests(s, t);
    QuietFrame(s, t);
  }

  lemma PlugsStatus(s: State, t: State)
    requires IdsOk(s) && ListsOk(s) && StatusOk(s) && CountedOk(s) && ProgressOk(s, {}) && PluginsOk(s)
    requires IsPlugs(s, t)
    ensures IdsOk(t) && ListsOk(t) && StatusOk(t) && CountedOk(t) && ProgressOk(t, {}) && PluginsOk(t)
  {
    assert forall x :: IsReleasing(Whole(s), x) ==> x == s.stack.id || IsReleasing(Whole(t), x);
    assert PluginsOk(t);
    SameStackFrame(s, t);
  }

  /** Clauses that only count the loops, factories and releases in progress. */
  lemma SameStackFrame(s: State, t: State)
    requires IdsOk(s) && ListsOk(s) && StatusOk(s) && CountedOk(s) && ProgressOk(s, {})
    requires t == s.(stack := t.stack, inversePlugin := t.inversePlugin)
    requires IsOther(s.stack) && (t.stack == s.stack.below || (IsOther(t.stack) && t.stack.below == s.stack.below))
    ensures IdsOk(t) && ListsOk(t) && StatusOk(t) && CountedOk(t) && ProgressOk(t, {})
  {
    SameStackIds(s, t);
    SameStackStatus(s, t);
    SameStackCounts(s, t);
  }

  lemma SameStackIds(s: State, t: State)
    requires IdsOk(s) && ListsOk(s) && t == s.(stack := t.stack, inversePlugin := t.inversePlugin)
    requires IsOther(s.stack) && (t.stack == s.stack.below || (IsOther(t.stack) && t.stack.below == s.stack.below))
    ensures IdsOk(t) && ListsOk(t)
  {
    SameStack(s, t);
    hide Resolvings, StackOk, Whole, IsOther;
  }

  lemma SameStackStatus(s: State, t: State)
    requires StatusOk(s) && t == s.(stack := t.stack, inversePlugin := t.inversePlugin)
    requires IsOther(s.stack) && (t.stack == s.stack.below || (IsOther(t.stack) && t.stack.below == s.stack.below))
    ensures StatusOk(t)
  {
    SameStack(s, t);
    hide Runnings, Whole, IsOther;
  }

  lemma SameStackCounts(s: State, t: State)
    requires CountedOk(s) && ProgressOk(s, {}) && t == s.(stack := t.stack, inversePlugin := t.inversePlugin)
    requires IsOther(s.stack) && (t.stack == s.stack.below || (IsOther(t.stack) && t.stack.below == s.stack.below))
    ensures CountedOk(t) && ProgressOk(t, {})
  {
    SameStack(s, t);
    hide Owed, Resolvings, Whole, Occurrences, IsOther;
  }

  lemma SameStack(s: State, t: State)
    requires IsOther(s.stack) && (t.stack == s.stack.below || (IsOther(t.stack) && t.stack.below == s.stack.below))
    requires t.dead == s.dead
    ensures forall x :: Owed(Whole(t), x) == Owed(Whole(s), x)
    ensures forall x :: Runnings(Whole(t), x) == Runnings(Whole(s), x)
    ensures forall x :: Resolvings(t.stack, x) == Resolvings(s.stack, x)
    ensures forall x :: Resolvings(Whole(t), x) == Resolvings(Whole(s), x)
    ensures StackOk(Whole(s), s.declared) ==> StackOk(Whole(t), s.declared)
  {
  }

  /** Resources are being plugged in, or a release is over. */
  ghost predicate IsOther(stack: Stack) {
    stack.Plugging? || (stack.Releasing? && stack.pending == [])
  }

  lemma PlugsSettles(s: State, t: State)
    requires SettledOk(s) && IsPlugs(s, t)
    ensures SettledOk(t)
  {
    SettledFrame(s, t);
  }

  lemma PlugsRequests(s: State, t: State)
    requires RequestedOk(s) && IsPlugs(s, t)
    ensures RequestedOk(t)
  {
    forall d | Waiting(t.inverse, d) != [] ensures Requested(t, d) {
      assert Requested(s, d);
      if HeldByPlugin(s, d) {
        var p :| p in s.inversePlugin && (p in s.modules || p in s.known) && d in Ids(s.inversePlugin[p]);
        if p != s.stack.id {
          assert p in t.inversePlugin && (p in t.modules || p in t.known) && d in Ids(t.inversePlugin[p]);
        }
      }
    }
  }

  /** The next resource is handed to the plugin. */
  ghost predicate IsPlug(s: State, t: State, dep: Dependency) {
    && s.stack.Plugging? && s.stack.resources != [] && s.stack.resources[0] == dep
    && t == s.(stack := s.stack.(resources := s.stack.resources[1..]))
  }

  lemma PlugKeeps(s: State, t: State, dep: Dependency)
    requires Inv(s, {}) && IsPlug(s, t, dep)
    ensures Core(t, {}) && RequestedExcept(t, dep.Id()) && Grows(s, t)
  {
    hide IdsOk, StatusOk, ListsOk, CountedOk, ProgressOk, SettledOk, BrokenOk, NoWaitCycle, PluginsOk;
    hide HistoryOk, RequestedOk, DefsOk, UnwoundOk;
    PlugStatus(s, t);
    PlugSettles(s, t);
    PlugRequests(s, t, dep);
    QuietFrame(s, t);
  }

  lemma PlugStatus(s: State, t: State)
    requires IdsOk(s) && ListsOk(s) && StatusOk(s) && CountedOk(s) && ProgressOk(s, {}) && PluginsOk(s)
    requires s.stack.Plugging? && t == s.(stack := t.stack)
    requires t.stack == s.stack.below || (t.stack.Plugging? && t.stack.below == s.stack.below)
    ensures IdsOk(t) && ListsOk(t) && StatusOk(t) && CountedOk(t) && ProgressOk(t, {}) && PluginsOk(t)
  {
    SameStackFrame(s, t);
    PlugPlugins(s, t);
  }

  lemma PlugPlugins(s: State, t: State)
    requires PluginsOk(s) && s.stack.Plugging? && t == s.(stack := t.stack)
    requires t.stack == s.stack.below || (t.stack.Plugging? && t.stack.below == s.stack.below)
    ensures PluginsOk(t)
  {
    hide IsPlugin;
    assert forall x :: IsReleasing(Whole(t), x) == IsReleasing(Whole(s), x);
  }

  lemma PlugSettles(s: State, t: State)
    requires SettledOk(s)
    requires s.stack.Plugging? && t == s.(stack := t.stack)
    requires t.stack == s.stack.below || (t.stack.Plugging? && t.stack.below == s.stack.below)
    ensures SettledOk(t)
  {
    SettledFrame(s, t);
  }

  lemma PlugRequests(s: State, t: State, dep: Dependency)
    requires RequestedOk(s) && IsPlug(s, t, dep)
    ensures RequestedExcept(t, dep.Id())
  {
    forall d | Waiting(t.inverse, d) != [] && d != dep.Id() ensures Requested(t, d) {
      assert Requested(s, d);
      if HeldByPlugin(s, d) { assert HeldByPlugin(t, d); }
      var now, next := Ids(s.stack.resources), Ids(t.stack.resources);
      if d in now {
        var j :| 0 <= j < |now| && now[j] == d;
        assert next[j - 1] == d;
      }
    }
  }

  ghost predicate IsPlugged(s: State, t: State) {
    && s.stack.Plugging? && s.stack.resources == []
    && t == s.(stack := s.stack.below)
  }

  lemma PluggedKeeps(s: State, t: State)
    requires Inv(s, {}) && IsPlugged(s, t)
    ensures Inv(t, {}) && Grows(s, t)
  {
    hide IdsOk, StatusOk, ListsOk, CountedOk, ProgressOk, SettledOk, BrokenOk, NoWaitCycle, PluginsOk;
    hide HistoryOk, RequestedOk, DefsOk, UnwoundOk;
    PlugStatus(s, t);
    PlugSettles(s, t);
    QuietFrame(s, t);
    RequestedFrame(s, t);
  }
}
