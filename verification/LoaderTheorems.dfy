/** What the invariant of the module manager means for its users. */
module LoaderTheorems {
  import opened Basics
  import opened Graphs
  import opened LoaderCompletion
  import opened LoaderFacts
  import opened LoaderScenes
  import opened LoaderScripts
  import opened LoaderState
  import opened LoaderSteps
  import opened ModuleManagers

  // ---------- nothing gets stuck without a reason ----------

  /** x is y, or waits for it, directly or through others. */
  ghost predicate IsHeldBy(inverse: Graph, y: nat, x: nat) {
    x == y || Reaches(inverse, y, x)
  }

  /** x waits, directly or through others, for an id that is not defined. */
  ghost predicate WaitsForUndefined(s: State, x: nat) {
    exists d :: Reaches(s.inverse, d, x) && d !in s.modules
  }

  /** x waits for a module whose factory has been left by an exception: it counts as complete, but never lets go. */
  ghost predicate WaitsForThrown(s: State, x: nat) {
    exists d :: Reaches(s.inverse, d, x) && Runnings(s.dead, d) > 0
  }

  /** x, or a module that it waits for, has not been told that a module which it waits for has failed. */
  ghost predicate WaitsUntold(a: Scene, x: nat) {
    exists d, y :: (d, y) in a.missed && y !in a.s.notified && IsHeldBy(a.s.inverse, y, x)
  }

  /** x, or a module that it waits for, is owed something by an activity that an exception has cut short. */
  ghost predicate WaitsForAbandoned(s: State, x: nat) {
    exists y :: y in s.modules && y !in s.notified && Owed(s.dead, y) > 0 && IsHeldBy(s.inverse, y, x)
  }

  ghost predicate Stuck(a: Scene, x: nat) {
    WaitsForUndefined(a.s, x) || WaitsForThrown(a.s, x) || WaitsUntold(a, x) || WaitsForAbandoned(a.s, x)
  }

  lemma {:induction false} SomeoneIsWaitedFor(inverse: Graph, x: nat, n: nat) returns (d: nat)
    requires Occurrences(inverse, x, n) > 0
    ensures x in Waiting(inverse, d)
  {
    if x in Waiting(inverse, n - 1) {
      d := n - 1;
    } else {
      d := SomeoneIsWaitedFor(inverse, x, n - 1);
    }
  }

  /** A module that someone waits for has not come to an end; if it has begun, an exception has left its factory. */
  lemma WaitedForHasNotEnded(s: State, d: nat, x: nat)
    requires Core(s, {}) && s.stack == Idle
    requires x in Waiting(s.inverse, d) && d in s.modules && d !in s.notified
    ensures s.modules[d].isComplete ==> Runnings(s.dead, d) > 0
  {
    assert Whole(s) == s.dead;
  }

  lemma WaiterHasNotBegun(s: State, d: nat, x: nat)
    requires Core(s, {}) && x in Waiting(s.inverse, d)
    ensures x in s.modules && x !in s.begun
  {
    assert x in s.declared;
    hide StatusOk, ListsOk, ProgressOk, SettledOk, BrokenOk, NoWaitCycle, PluginsOk, DefsOk, HistoryOk, UnwoundOk;
    DefinedIsStored(s, {});
    OwedNotBegun(s, {}, x);
  }

  lemma UnbegunIsIncomplete(s: State, x: nat)
    requires Core(s, {}) && x in s.modules && x !in s.notified && x !in s.begun
    ensures !s.modules[x].isComplete
  {
  }

  lemma HeldIsStuck(a: Scene, d: nat, x: nat)
    requires Stuck(a, d) && Edge(a.s.inverse, d, x)
    ensures Stuck(a, x)
  {
    var s := a.s;
    EdgeReaches(s.inverse, d, x);
    if WaitsForUndefined(s, d) {
      var root :| Reaches(s.inverse, root, d) && root !in s.modules;
      Append(s.inverse, root, d, x);
    } else if WaitsForThrown(s, d) {
      var root :| Reaches(s.inverse, root, d) && Runnings(s.dead, root) > 0;
      Append(s.inverse, root, d, x);
    } else if WaitsUntold(a, d) {
      var e, y :| (e, y) in a.missed && y !in s.notified && IsHeldBy(s.inverse, y, d);
      HeldByNext(s.inverse, y, d, x);
    } else {
      var y :| y in s.modules && y !in s.notified && Owed(s.dead, y) > 0 && IsHeldBy(s.inverse, y, d);
      HeldByNext(s.inverse, y, d, x);
    }
  }

  lemma HeldByNext(inverse: Graph, y: nat, d: nat, x: nat)
    requires IsHeldBy(inverse, y, d) && Edge(inverse, d, x)
    ensures IsHeldBy(inverse, y, x)
  {
    if y == d {
      EdgeReaches(inverse, d, x);
    } else {
      Append(inverse, y, d, x);
    }
  }

  lemma {:induction false} IncompleteIsStuck(a: Scene, x: nat, rank: nat -> nat)
    requires Core(a.s, {}) && HeardOk(a.s, a.missed) && a.s.stack == Idle && Ranked(a.s.inverse, rank)
    requires x in a.s.modules && !a.s.modules[x].isComplete
    ensures Stuck(a, x)
    decreases rank(x)
  {
    var s := a.s;
    IncompleteIsOwed(s, x);
    if Owed(s.dead, x) > 0 {
      assert IsHeldBy(s.inverse, x, x);
    } else {
      var d := SomeoneIsWaitedFor(s.inverse, x, s.nextId);
      assert Edge(s.inverse, d, x);
      EdgeReaches(s.inverse, d, x);
      if d in s.modules {
        if d in s.notified {
          assert (d, x) in a.missed && IsHeldBy(s.inverse, x, x);
        } else if s.modules[d].isComplete {
          WaitedForHasNotEnded(s, d, x);
        } else {
          IncompleteIsStuck(a, d, rank);
          HeldIsStuck(a, d, x);
        }
      }
    }
  }

  lemma IncompleteIsOwed(s: State, x: nat)
    requires Core(s, {}) && s.stack == Idle && x in s.modules && !s.modules[x].isComplete
    ensures x !in s.notified && (Owed(s.dead, x) > 0 || Occurrences(s.inverse, x, s.nextId) > 0)
  {
    assert Whole(s) == s.dead;
    assert s.modules[x].unresolved > 0;
  }

  /** The last step of a chain of waiting modules. */
  lemma LastStep(inverse: Graph, y: nat, x: nat) returns (d: nat)
    requires Reaches(inverse, y, x)
    ensures x in Waiting(inverse, d)
  {
    var p :| ChainBetween(inverse, p, y, x);
    assert Edge(inverse, p[|p| - 2], p[|p| - 1]);
    d := p[|p| - 2];
  }

  lemma StuckIsIncomplete(a: Scene, x: nat)
    requires Core(a.s, {}) && HeardOk(a.s, a.missed) && x in a.s.modules && x !in a.s.notified && Stuck(a, x)
    requires a.s.stack == Idle
    ensures !a.s.modules[x].isComplete
  {
    var s := a.s;
    hide Core;
    if y :| Reaches(s.inverse, y, x) {
      var d := LastStep(s.inverse, y, x);
      WaiterHasNotBegun(s, d, x);
    } else if WaitsUntold(a, x) {
      var d :| (d, x) in a.missed;
      WaiterHasNotBegun(s, d, x);
    } else {
      assert Owed(s.dead, x) > 0 && Whole(s) == s.dead;
      OwedNotBegun(s, {}, x);
    }
    UnbegunIsIncomplete(s, x);
  }

  /**
   At rest a module that has not failed is incomplete exactly when it is stuck for one of these reasons: an id that was
   never defined, an exception that left a factory or cut a loop short, or a failure that was not passed on.
   */
  lemma NoModuleIsStuck(a: Scene, x: nat)
    requires Inv(a.s, {}) && HeardOk(a.s, a.missed) && a.s.stack == Idle && x in a.s.modules && x !in a.s.notified
    ensures !a.s.modules[x].isComplete <==> Stuck(a, x)
  {
    InvIsCore(a.s, {});
    hide Inv, Stuck;
    if !a.s.modules[x].isComplete {
      var rank := SomeRank(a.s);
      IncompleteIsStuck(a, x, rank);
    }
    if Stuck(a, x) {
      StuckIsIncomplete(a, x);
    }
  }

  lemma SomeRank(s: State) returns (rank: nat -> nat)
    requires Core(s, {})
    ensures Ranked(s.inverse, rank)
  {
    rank :| Ranked(s.inverse, rank);
  }

  ghost predicate NoPlugins(declared: map<nat, seq<Dependency>>) {
    forall x, j :: x in declared && 0 <= j < |declared[x]| ==> !declared[x][j].Plugin?
  }

  ghost predicate NothingUnwound(log: seq<Entry>) {
    forall k :: 0 <= k < |log| ==> !log[k].Unwound?
  }

  lemma WaitedForIsDefined(s: State, d: nat)
    requires Inv(s, {}) && s.stack == Idle && s.dead == Idle && NoPlugins(s.declared) && s.known <= s.modules.Keys
    requires Waiting(s.inverse, d) != []
    ensures d in s.modules
  {
    assert Requested(s, d);
    NothingIsHeld(s, d);
  }

  lemma NothingIsHeld(s: State, d: nat)
    requires PluginsOk(s) && NoPlugins(s.declared)
    ensures !HeldByPlugin(s, d)
  {
    forall p ensures !IsPlugin(s.declared, p) {
    }
  }

  /** A run without failures, plugins and exceptions that leave the manager. */
  lemma CompleteUnlessFailed(a: Scene)
    requires Inv(a.s, {}) && HeardOk(a.s, a.missed) && a.s.stack == Idle
    requires a.s.notified == {} && NoPlugins(a.s.declared) && NothingUnwound(a.s.log) && a.s.known <= a.s.modules.Keys
    ensures forall x :: x in a.s.modules ==> a.s.modules[x].isComplete && x in a.s.ended
  {
    hide Inv, HeardOk, WaitsForUndefined;
    NothingDead(a.s);
    forall x | x in a.s.modules ensures a.s.modules[x].isComplete && x in a.s.ended {
      NoModuleIsStuck(a, x);
      NothingHoldsUp(a, x);
      CompleteHasEnded(a.s, x);
    }
  }

  lemma NothingHoldsUp(a: Scene, x: nat)
    requires Inv(a.s, {}) && HeardOk(a.s, a.missed) && a.s.stack == Idle && a.s.dead == Idle
    requires a.s.notified == {} && NoPlugins(a.s.declared) && a.s.known <= a.s.modules.Keys
    ensures !Stuck(a, x)
  {
    hide Inv;
    forall root | Reaches(a.s.inverse, root, x) ensures root in a.s.modules {
      var next := FirstStep(a.s.inverse, root, x);
      assert next in Waiting(a.s.inverse, root);
      WaitedForIsDefined(a.s, root);
    }
  }

  lemma NothingDead(s: State)
    requires Inv(s, {}) && NothingUnwound(s.log)
    ensures s.dead == Idle
  {
  }

  lemma CompleteHasEnded(s: State, x: nat)
    requires Inv(s, {}) && s.stack == Idle && s.dead == Idle && x in s.modules && x !in s.notified
    ensures s.modules[x].isComplete ==> x in s.ended
  {
    assert Runnings(Whole(s), x) == 0;
  }

  /** Modules never wait for one another in a circle. */
  lemma NobodyWaitsForItself(s: State)
    requires Inv(s, {})
    ensures Acyclic(s.inverse)
  {
    var rank :| Ranked(s.inverse, rank);
    RankedIsAcyclic(s.inverse, rank);
  }

  /**
   At any call boundary: a counter is never negative, and counts list entries, unvisited dependencies, and entries of
   releases, be they in progress or cut short.
   */
  lemma CounterIsConserved(s: State, pivot: set<nat>, x: nat)
    requires Inv(s, pivot) && x in s.modules
    ensures s.modules[x].unresolved >= 0
    ensures x !in s.notified ==>
      s.modules[x].unresolved == Occurrences(s.inverse, x, s.nextId) + Owed(s.stack, x) + Owed(s.dead, x)
    ensures forall n: nat :: n >= s.nextId ==> Occurrences(s.inverse, x, n) == Occurrences(s.inverse, x, s.nextId)
  {
    OverSplits(s.stack, s.dead, x, 0, s.declared);
    forall n: nat | n >= s.nextId ensures Occurrences(s.inverse, x, n) == Occurrences(s.inverse, x, s.nextId) {
      OccurrencesBeyond(s.inverse, x, s.nextId, n);
    }
  }

  // ---------- failures that are not passed on ----------

  /** A failure in a resolve loop reaches everyone concerned exactly if nobody untold waits for the module by then. */
  lemma FailureIsPassedOnIfNobodyWaits(s: State, t: State, id: nat, err: Error)
    requires Inv(s, {}) && IsNotify(s, t, id, err) && id !in s.notified
    ensures (forall x :: Affected(t.inverse, id, x) ==> x in t.notified)
      <==> (forall x :: Reaches(s.inverse, id, x) ==> x in s.notified)
  {
    NobodyWaitsForItself(s);
    PassedOnIff(s.inverse, s.notified, id);
  }

  lemma PassedOnIff(inverse: Graph, told: set<nat>, id: nat)
    requires !Reaches(inverse, id, id) && id !in told
    ensures (forall x :: Affected(inverse, id, x) ==> x in told + {id})
      <==> (forall x :: Reaches(inverse, id, x) ==> x in told)
  {
    hide Reaches;
    if forall x :: Affected(inverse, id, x) ==> x in told + {id} {
      forall x | Reaches(inverse, id, x) ensures x in told {
        assert Affected(inverse, id, x);
      }
    }
  }

  // ---------- factories run once ----------

  ghost function Completions(log: seq<Entry>, x: nat): nat {
    if |log| == 0 then 0
    else Completions(log[..|log| - 1], x) + if log[|log| - 1].Completing? && log[|log| - 1].id == x then 1 else 0
  }

  lemma {:induction false} CompletionsCount(log: seq<Entry>, x: nat)
    requires forall i, k :: BeginsAt(log, i, x) && BeginsAt(log, k, x) ==> i == k
    ensures Completions(log, x) == if exists k :: BeginsAt(log, k, x) then 1 else 0
  {
    if |log| == 0 {
    } else {
      var n := |log| - 1;
      var shorter := log[..n];
      assert forall k :: k != n ==> (BeginsAt(shorter, k, x) <==> BeginsAt(log, k, x));
      CompletionsCount(shorter, x);
      if BeginsAt(log, n, x) {
        assert !exists k :: BeginsAt(shorter, k, x);
      } else if exists k :: BeginsAt(log, k, x) {
        var k :| BeginsAt(log, k, x);
        assert BeginsAt(shorter, k, x);
      }
    }
  }

  /** In any run a module is completed at most once, and never after it has failed. */
  lemma CompletedAtMostOnce(s: State, x: nat)
    requires Inv(s, {})
    ensures Completions(s.log, x) == if x in s.begun then 1 else 0
    ensures forall i, k :: FailsAt(s.log, i, x) && BeginsAt(s.log, k, x) ==> k < i
  {
    CompletionsCount(s.log, x);
  }

  // ---------- factories run in the order of the dependencies ----------

  ghost predicate BegunBefore(log: seq<Entry>, k: int, d: nat) {
    exists i :: i < k && BeginsAt(log, i, d)
  }

  lemma HistoryHolds(s: State)
    requires Inv(s, {})
    ensures HistoryOk(s)
  {
  }

  /** A dependency path leads from d back to x, and a report of this has been printed. */
  ghost predicate IsReportedCycle(s: State, d: nat, x: nat) {
    var g := DeclaredGraph(s.declared);
    Reaches(g, d, x) && HasReport(g, s.reports, d, x)
  }

  /** When a module is completed, each dependency was begun earlier or lies with it on a cycle that was reported. */
  lemma DependenciesComeFirst(s: State, k: nat, j: nat)
    requires Inv(s, {}) && k < |s.log| && s.log[k].Completing?
    requires s.log[k].id in s.declared && j < |s.declared[s.log[k].id]| && !s.declared[s.log[k].id][j].Builtin()
    ensures var x, d := s.log[k].id, s.declared[s.log[k].id][j].Id();
      || BegunBefore(s.log, k, d)
      || (s.hasCycle && IsReportedCycle(s, d, x))
  {
    HistoryHolds(s);
    var x, d := s.log[k].id, s.declared[s.log[k].id][j].Id();
    BegunOrDropped(s.log, k, x, j, s.declared, s.broken);
    hide BegunBefore, HistoryOk, IsReportedCycle;
    if (x, d) in s.broken {
      DroppedIsReported(s, x, d);
    }
  }

  lemma BegunOrDropped(log: seq<Entry>, k: nat, x: nat, j: nat, declared: map<nat, seq<Dependency>>,
      broken: set<(nat, nat)>)
    requires OrderOk(log, declared, broken) && k < |log| && log[k].Completing? && log[k].id == x
    requires x in declared && j < |declared[x]| && !declared[x][j].Builtin()
    ensures BegunBefore(log, k, declared[x][j].Id()) || (x, declared[x][j].Id()) in broken
  {
    assert CallOk(log, k, x, log[k].args, declared, broken);
    assert ArgumentOk(log, k, x, declared[x][j], log[k].args[j], broken);
  }

  lemma DroppedIsReported(s: State, x: nat, d: nat)
    requires Inv(s, {}) && (x, d) in s.broken
    ensures s.hasCycle && IsReportedCycle(s, d, x)
  {
  }

  /** As long as no cycle has been met the log is a topological order of the dependency graph. */
  lemma LogIsTopological(s: State, k: nat, d: nat)
    requires Inv(s, {}) && !s.hasCycle
    requires k < |s.log| && s.log[k].Completing?
    requires s.log[k].id in s.declared && DependsOn(s.declared[s.log[k].id], d)
    ensures BegunBefore(s.log, k, d)
  {
    var deps := s.declared[s.log[k].id];
    var j :| 0 <= j < |deps| && !deps[j].Builtin() && deps[j].Id() == d;
    DependenciesComeFirst(s, k, j);
  }

  /**
   With factories that do not call back, each dependency that was not dropped from a cycle was completed before, and
   its final exports are what the factory gets, in the place of the dependency, unless an exception left its factory.
   */
  lemma FactoryGetsFinalExports(s: State, k: nat, j: nat)
    requires Inv(s, {}) && Uninterrupted(s.log) && k < |s.log| && s.log[k].Completing?
    requires s.log[k].id in s.declared && j < |s.declared[s.log[k].id]| && !s.declared[s.log[k].id][j].Builtin()
    requires (s.log[k].id, s.declared[s.log[k].id][j].Id()) !in s.broken
    ensures var d := s.declared[s.log[k].id][j].Id();
      && |s.log[k].args| == |s.declared[s.log[k].id]|
      && (|| (&& (exists i :: i < k && EndsAt(s.log, i, d))
              && d in s.modules && s.log[k].args[j] == Val(s.modules[d].exports))
          || (exists i :: BeginsAt(s.log, i, d) && i + 1 < k && s.log[i + 1] == Unwound(d)))
  {
    HistoryHolds(s);
    hide Inv, Core, OnceOk, LogLinks, Uninterrupted;
    var x := s.log[k].id;
    var d := s.declared[x][j].Id();
    assert CallOk(s.log, k, x, s.log[k].args, s.declared, s.broken);
    assert ArgumentOk(s.log, k, x, s.declared[x][j], s.log[k].args[j], s.broken);
    hide OrderOk, CallOk;
    var i :| i < k && BeginsAt(s.log, i, d);
    EndsBefore(s.log, i, d, k);
  }

  lemma EndsBefore(log: seq<Entry>, i: int, d: nat, k: nat)
    requires Uninterrupted(log) && BeginsAt(log, i, d) && i < k < |log| && log[k].Completing?
    ensures (exists e :: e < k && EndsAt(log, e, d)) || (i + 1 < k && log[i + 1] == Unwound(d))
  {
    assert EndsAtOnce(log, i, d);
  }

  // ---------- modules are what their factories make of them ----------

  /** Some call of the factory of x, the one that the script has in this place, has made x what it is. */
  ghost predicate IsMadeByFactory(script: Script, s: State, x: nat)
    requires x in s.declared && x in s.modules
  {
    exists k: nat :: BeginsAt(s.log, k, x) && CallsFactory(s.log[k]) && IsMadeBy(x, s.declared[x],
      FactoryCall(script, Runs(s.log[..k])), s.modules[x].exports, s.modules[x].error, x in s.notified)
  }

  /**
   A module has the value it was defined with, or what its factory makes, or the exports object it began with; nothing
   will be called any more.
   */
  ghost predicate IsAsDefined(script: Script, s: State, x: nat) {
    && x in s.defs && x in s.modules && x in s.declared && s.declared[x] == s.defs[x].deps
    && s.modules[x].callback.NoCallback? && !s.modules[x].hasErrorback
    && match s.defs[x].callback
       case NoCallback => s.modules[x].exports == Fresh(x)
       case Literal(value) => s.modules[x].exports == value
       case Factory => IsMadeByFactory(script, s, x)
  }

  /** A factory's exception that is turned into an error is reported before the module comes to an end. */
  lemma CaughtIsReported(script: Script, a: Scene, k: nat, e: nat)
    requires Inv(a.s, {}) && Fair(script, a) && k < e < |a.s.log|
    requires CallsFactory(a.s.log[k]) && EndsAt(a.s.log, e, a.s.log[k].id)
    requires FactoryCall(script, Runs(a.s.log[..k])).outcome.Threw?
    ensures a.catchError && a.s.log[e - 1] == ErrorReported(a.s.log[k].id)
  {
    EndIsLogged(a.s, e, a.s.log[k].id);
    hide Inv, IsMadeBy;
    MadeIsKnown(script, a, k, e, a.s.log[k].id);
    assert !IsEscape(script, a.catchError, Runs(a.s.log[..k]));
  }

  lemma EndIsLogged(s: State, e: nat, x: nat)
    requires Inv(s, {}) && EndsAt(s.log, e, x)
    ensures x in s.ended
  {
    HistoryHolds(s);
  }

  /** In any run, whatever a module is defined with is what it is when it has come to an end. */
  lemma EndedIsAsDefined(script: Script, a: Scene, x: nat)
    requires Inv(a.s, {}) && Fair(script, a) && x in a.s.ended
    ensures IsAsDefined(script, a.s, x)
  {
    var s := a.s;
    hide Inv, Core, Fair, IsMadeByFactory, IsMadeAt, BeginsAt, EndsAt;
    EndedIsLogged(s, x);
    var k: nat, e: nat :| k < e && BeginsAt(s.log, k, x) && EndsAt(s.log, e, x);
    EndedAt(s, k, e, x);
    if s.defs[x].callback.Factory? {
      MadeIsKnown(script, a, k, e, x);
      assert IsMadeByFactory(script, s, x) by { MadeByThisCall(script, a, k, e, x); }
    }
  }

  lemma EndedIsLogged(s: State, x: nat)
    requires Inv(s, {}) && x in s.ended
    ensures exists k: nat, e: nat :: k < e && BeginsAt(s.log, k, x) && EndsAt(s.log, e, x)
    ensures x in s.defs && x in s.modules && x in s.declared && s.declared[x] == s.defs[x].deps
    ensures IsExportOf(s.defs[x].callback, x, s.modules[x].exports)
    ensures s.modules[x].callback.NoCallback? && !s.modules[x].hasErrorback
  {
    HistoryHolds(s);
    var e :| EndsAt(s.log, e, x);
    var k :| k < e && BeginsAt(s.log, k, x);
  }

  lemma EndedAt(s: State, k: nat, e: nat, x: nat)
    requires Inv(s, {}) && BeginsAt(s.log, k, x) && EndsAt(s.log, e, x) && x in s.defs && x in s.modules
    ensures k < |s.log| && e < |s.log| && s.log[k].Completing? && s.log[k].id == x && s.log[e].Completed?
    ensures s.log[k].callback == s.defs[x].callback
    ensures s.modules[x].exports == s.log[e].exports && (x !in s.notified ==> s.modules[x].error == s.log[e].error)
  {
  }

  lemma MadeIsKnown(script: Script, a: Scene, k: nat, e: nat, x: nat)
    requires Fair(script, a) && k < e && BeginsAt(a.s.log, k, x) && EndsAt(a.s.log, e, x) && CallsFactory(a.s.log[k])
    ensures IsMadeAt(script, a, k, e)
  {
  }

  lemma MadeByThisCall(script: Script, a: Scene, k: nat, e: nat, x: nat)
    requires k < |a.s.log| && e < |a.s.log| && a.s.log[k].Completing? && a.s.log[e].Completed?
    requires IsMadeAt(script, a, k, e)
    requires BeginsAt(a.s.log, k, x) && CallsFactory(a.s.log[k]) && x in a.s.modules
    requires a.s.modules[x].exports == a.s.log[e].exports
    requires x !in a.s.notified ==> a.s.modules[x].error == a.s.log[e].error
    ensures x in a.s.declared && IsMadeByFactory(script, a.s, x)
  {
    var call := FactoryCall(script, Runs(a.s.log[..k]));
    ErrorOfTold(x, a.s.declared[x], call, a.s.log[e].exports, a.s.log[e].error, a.s.modules[x].error,
      x in a.s.notified);
  }

  /** The error of a module that has been told of another one does not matter. */
  lemma ErrorOfTold(x: nat, deps: seq<Dependency>, reaction: Reaction, exports: Value, error: Option<Error>,
      other: Option<Error>, told: bool)
    requires IsMadeBy(x, deps, reaction, exports, error, told) && (!told ==> other == error)
    ensures IsMadeBy(x, deps, reaction, exports, other, told)
  {
    if !IsMade(x, deps, reaction.outcome, exports, error, told) {
      var token :| IsMade(x, deps, Threw(token), exports, error, told);
      assert IsMade(x, deps, Threw(token), exports, other, told);
    }
  }

  // ---------- exceptions ----------

  /**
   An exception that has cut short one activity goes on to the next, or is caught by foreign code, or becomes the error
   of a module and is reported; nothing else comes in between. If no foreign code that the manager calls catches
   anything, only its callers do.
   */
  lemma ExceptionsUnwind(script: Script, a: Scene, k: nat)
    requires Fair(script, a) && k < |a.s.log|
    ensures a.s.log[k].Unwound? && k + 1 < |a.s.log| ==>
      a.s.log[k + 1].Unwound? || a.s.log[k + 1].Caught? || a.s.log[k + 1].ErrorReported?
    ensures a.s.log[k].Unwound? && k + 1 == |a.s.log| ==> a.flying
    ensures NobodyCatches(script) && a.s.log[k].Caught? ==> !a.s.log[k].inside
  {
  }

  // ---------- only what is needed is asked for ----------

  /**
   The script loader is asked for a dependency of some module, or for the plugin that one needs; and a plugin is handed
   a resource only if some module depends on it, and after the plugin has been completed or has failed.
   */
  lemma OnlyNamedIsRequested(s: State, k: nat)
    requires Inv(s, {}) && k < |s.log| && s.log[k].ScriptRequested?
    ensures s.log[k].plugin.None? ==> Names(s.declared, Regular(s.log[k].id)) || IsPlugin(s.declared, s.log[k].id)
    ensures s.log[k].plugin.Some? ==>
      var plugin := s.log[k].plugin.value;
      && Names(s.declared, Plugin(s.log[k].id, plugin))
      && exists i :: i < k && (BeginsAt(s.log, i, plugin) || FailsAt(s.log, i, plugin))
  {
    HistoryHolds(s);
    assert IsAskedInOrder(s.log, k, s.declared);
  }

  // ---------- cycles are found exactly ----------

  ghost function Position(log: seq<Entry>, x: nat): (k: nat)
    requires exists k :: BeginsAt(log, k, x)
    ensures BeginsAt(log, k, x)
  {
    var k :| BeginsAt(log, k, x);
    k
  }

  /** How far before the end of the log a module was begun; ids that are not modules come after everything. */
  ghost function Age(s: State, x: nat): nat {
    if exists k :: BeginsAt(s.log, k, x) then |s.log| - Position(s.log, x) else |s.log| + 1
  }

  /** No module was defined under the names exports, module or require. */
  ghost predicate NamesFree(s: State) {
    forall x :: x in s.declared ==> x > 2
  }

  lemma BegunHasPosition(s: State, x: nat)
    requires Inv(s, {})
    ensures x in s.begun <==> exists k :: BeginsAt(s.log, k, x)
    ensures x in s.begun ==> x in s.declared
  {
    hide ListsOk, CountedOk, ProgressOk, SettledOk, BrokenOk, NoWaitCycle, PluginsOk, RequestedOk, DefsOk, UnwoundOk;
    hide OnceOk, OrderOk, ExportsOk;
  }

  lemma EarlierPosition(s: State, x: nat, k: int)
    requires Inv(s, {}) && BegunBefore(s.log, k, x)
    ensures (exists i :: BeginsAt(s.log, i, x)) && Position(s.log, x) < k
  {
    HistoryHolds(s);
    hide Inv, LogLinks, OrderOk, ExportsOk;
    var i :| i < k && BeginsAt(s.log, i, x);
    assert BeginsAt(s.log, Position(s.log, x), x);
  }

  lemma OlderDependency(s: State, a: nat, b: nat)
    requires Inv(s, {}) && !s.hasCycle && NamesFree(s) && s.begun == s.modules.Keys && s.declared.Keys == s.modules.Keys
    requires Edge(DeclaredGraph(s.declared), a, b)
    ensures Age(s, a) < Age(s, b)
  {
    hide Inv, Core, BeginsAt;
    BegunHasPosition(s, a);
    BegunHasPosition(s, b);
    var k := Position(s.log, a);
    BeginsInside(s.log, k, a);
    if b in s.declared {
      var j :| 0 <= j < |s.declared[a]| && Ids(s.declared[a])[j] == b;
      assert !s.declared[a][j].Builtin() && DependsOn(s.declared[a], b);
      LogIsTopological(s, k, b);
      EarlierPosition(s, b, k);
    }
  }

  lemma BeginsInside(log: seq<Entry>, k: int, x: nat)
    requires BeginsAt(log, k, x)
    ensures 0 <= k < |log| && log[k].Completing? && log[k].id == x
  {
  }

  lemma SomePair(pairs: set<(nat, nat)>) returns (x: nat, d: nat)
    requires pairs != {}
    ensures (x, d) in pairs
  {
    var pair :| pair in pairs;
    x, d := pair.0, pair.1;
  }

  /** When every module has been completed, the cycle flag is up exactly if the dependency graph has a cycle. */
  lemma CycleFlagIsExact(s: State)
    requires Inv(s, {}) && NamesFree(s) && s.begun == s.modules.Keys
    ensures s.hasCycle <==> !Acyclic(DeclaredGraph(s.declared))
  {
    var g := DeclaredGraph(s.declared);
    if s.hasCycle {
      var x, d := SomePair(s.broken);
      var j :| 0 <= j < |s.declared[x]| && s.declared[x][j].Id() == d;
      assert Ids(s.declared[x])[j] == d;
      Prepend(g, x, d, x);
    } else {
      var rank := (x: nat) => Age(s, x);
      forall a: nat, b: nat | Edge(g, a, b) ensures rank(a) < rank(b) {
        OlderDependency(s, a, b);
      }
      RankedIsAcyclic(g, rank);
    }
  }
}
