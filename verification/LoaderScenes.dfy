/** Each elementary step of the module manager, seen as a step of a whole run. */
module LoaderScenes {
  import opened Basics
  import opened Graphs
  import opened LoaderState
  import opened LoaderSteps
  import opened LoaderCompletion
  import opened LoaderScripts

  /** The definitions are those that the given tables hold, which are still to be taken over. */
  ghost predicate FairFor(script: Script, a: Scene, tables: Tables) {
    tables == After(a.occurred) && AccountOk(script, a) && Orderly(script, a)
  }

  ghost predicate Fair(script: Script, a: Scene) {
    Legal(script, a) && Orderly(script, a)
  }

  lemma FairIsFor(script: Script, a: Scene)
    ensures Fair(script, a) <==> FairFor(script, a, Tables(a.s.defs, a.anonymous))
  {
  }

  lemma FairIsLegal(script: Script, a: Scene)
    ensures Fair(script, a) <==> Legal(script, a) && Orderly(script, a)
  {
  }

  /** Only the manager's own state changes. */
  ghost predicate InState(a: Scene, b: Scene) {
    b == a.(s := b.s)
  }

  /** Nothing is logged, no list changes, and no module begins, ends or fails. */
  ghost predicate IsInner(s: State, t: State) {
    && t.log == s.log && t.inverse == s.inverse && t.defs == s.defs && t.dead == s.dead
    && t.begun == s.begun && t.ended == s.ended && t.notified == s.notified && t.broken == s.broken
    && (NoErrors(s.modules) ==> NoErrors(t.modules))
  }

  /** What has been accounted for stays so while neither the log nor lists nor failures change. */
  lemma AccountedFrame(script: Script, a: Scene, b: Scene)
    requires AccountOk(script, a) && b.occurred == a.occurred && b.dropped == a.dropped && b.missed == a.missed
    requires b.left == a.left && b.catchError == a.catchError
    requires b.s.log == a.s.log && b.s.inverse == a.s.inverse && b.s.dead == a.s.dead
    requires b.s.begun == a.s.begun && b.s.ended == a.s.ended && b.s.notified == a.s.notified
    requires IsUnfailing(script, a) && NoErrors(a.s.modules) ==> NoErrors(b.s.modules)
    requires IsLater(a.s, b.s) && (a.flying ==> b.flying)
    ensures AccountOk(script, b)
  {
    hide CalmOk, IsUnfailing, NoErrors, IsLeft, IsEscape, CallsFactory, MadeOk, IsLater, FlightOk;
    FlightFrame(script, a, b);
    MadeFrame(script, a, b);
    CalmFrame(script, a, b);
    SameHeard(a, b);
  }

  /** The same with one more entry in the log, which neither begins nor ends a module. */
  lemma AccountedAppend(script: Script, a: Scene, b: Scene, e: Entry)
    requires AccountOk(script, a) && b.occurred == a.occurred && b.dropped == a.dropped && b.missed == a.missed
    requires b.left == a.left && b.catchError == a.catchError
    requires !e.ScriptRequested? && !e.Completing? && !e.Completed?
    requires b.s.log == a.s.log + [e] && b.s.inverse == a.s.inverse && b.s.dead == a.s.dead
    requires b.s.begun == a.s.begun && b.s.ended == a.s.ended && b.s.notified == a.s.notified
    requires IsUnfailing(script, a) && NoErrors(a.s.modules) ==> NoErrors(b.s.modules)
    requires IsLater(a.s, b.s) && (a.flying ==> IsPassedOn(e)) && !e.Unwound?
    requires e == Caught(true) ==> !NobodyCatches(script)
    ensures AccountOk(script, b)
  {
    OneEntry(a.s.log, e);
    hide CalmOk, IsUnfailing, NoErrors, IsEscape, ThrownOk, MadeOk, FlightOk, MayEnd;
    ThrownAppend(script, a, b, e);
    CalmFrame(script, a, b);
    SameHeard(a, b);
  }

  lemma InnerStep(script: Script, a: Scene, b: Scene, except: set<nat>)
    requires InState(a, b) && IsInner(a.s, b.s) && Grows(a.s, b.s) && Steady(a.s.modules, b.s.modules, except)
    ensures Legal(script, a) ==> Legal(script, b)
    ensures Fair(script, a) ==> Fair(script, b)
    ensures forall tables :: FairFor(script, a, tables) ==> FairFor(script, b, tables)
    ensures Leads(a, b, except) && Budget(b) == Budget(a)
  {
    hide Grows, Steady, Uninterrupted, After, AccountOk, NoErrors;
    if AccountOk(script, a) {
      GrowsLater(a.s, b.s);
      AccountedFrame(script, a, b);
    }
  }

  /** A step that only hands out ids. */
  ghost predicate IsInnerStep(script: Script, a: Scene, b: Scene) {
    && b == a.(s := a.s.(nextId := b.s.nextId)) && a.s.nextId <= b.s.nextId
    && Leads(a, b, {}) && Budget(b) == Budget(a)
    && (forall tables :: FairFor(script, a, tables) ==> FairFor(script, b, tables))
  }

  lemma InnerReflexive(script: Script, a: Scene)
    ensures IsInnerStep(script, a, a)
  {
    hide FairFor, Budget;
    LeadsReflexive(a, {});
  }

  lemma InnerTransitive(script: Script, a: Scene, b: Scene, c: Scene)
    requires IsInnerStep(script, a, b) && IsInnerStep(script, b, c)
    ensures IsInnerStep(script, a, c)
  {
    hide FairFor, Budget, Leads;
    LeadsTransitive(a, b, c, {});
  }

  // ---------- definitions ----------

  lemma StoreStep(script: Script, a: Scene, b: Scene, id: nat, def: Definition, m: Module)
    requires InState(a, b) && IsDeclare(a.s, b.s, id, def, m) && Grows(a.s, b.s) && a.s.defs.Keys == a.s.modules.Keys
    requires FairFor(script, a, WithDefinition(Tables(a.s.defs, a.anonymous), id, def))
    ensures Fair(script, b) && Leads(a, b, {}) && Budget(b) == Budget(a)
  {
    hide Grows, Uninterrupted, After, AccountOk, IsLater;
    GrowsLater(a.s, b.s);
    AccountedFrame(script, a, b);
  }

  lemma PlaceholderStep(script: Script, a: Scene, b: Scene, id: nat, m: Module)
    requires InState(a, b) && IsPlaceholder(a.s, b.s, id, m) && Grows(a.s, b.s) && a.s.defs.Keys == a.s.modules.Keys
    requires FairFor(script, a, WithDefinition(Tables(a.s.defs, a.anonymous), id, PLACEHOLDER))
    ensures Fair(script, b) && Leads(a, b, {}) && Budget(b) == Budget(a)
  {
    hide Grows, Uninterrupted, After, AccountOk, IsLater;
    GrowsLater(a.s, b.s);
    AccountedFrame(script, a, b);
  }

  lemma KnownDefinition(script: Script, a: Scene, id: nat, def: Definition)
    requires FairFor(script, a, WithDefinition(Tables(a.s.defs, a.anonymous), id, def)) && id in a.s.defs
    ensures Fair(script, a)
  {
  }

  // ---------- dependencies ----------

  lemma WaitStep(script: Script, a: Scene, b: Scene, id: nat, dep: Dependency)
    requires InState(a, b) && IsWait(a.s, b.s, id, dep) && Grows(a.s, b.s) && Fair(script, a)
    requires dep.Id() !in a.s.notified
    ensures Fair(script, b) && Leads(a, b, {}) && Budget(b) == Budget(a)
  {
    hide Grows, Uninterrupted, After, Reaches, ModuleGraph, AccountOk;
    WaitAccounted(script, a, b, id, dep);
    assert KeepsWaiting(a.s, b.s);
  }

  lemma WaitAccounted(script: Script, a: Scene, b: Scene, id: nat, dep: Dependency)
    requires InState(a, b) && IsWait(a.s, b.s, id, dep) && AccountOk(script, a) && dep.Id() !in a.s.notified
    ensures AccountOk(script, b)
  {
    hide Reaches, ModuleGraph, IsUnfailing, CalmOk, IsEscape;
    CalmFrame(script, a, b);
    forall e, x | e in b.s.notified && x in Waiting(b.s.inverse, e) && x !in b.s.notified ensures (e, x) in b.missed {
      assert Waiting(b.s.inverse, e) == Waiting(a.s.inverse, e);
    }
    forall e, x | (e, x) in b.missed ensures e in b.s.notified && e !in b.s.begun && x in Waiting(b.s.inverse, e) {
      assert e in a.s.notified && x in Waiting(a.s.inverse, e);
    }
  }

  lemma BreakStep(script: Script, a: Scene, b: Scene, id: nat, dep: Dependency, passed: bool, report: seq<nat>)
    requires InState(a, b) && IsSettle(a.s, b.s, id, dep, passed, Some(report)) && Grows(a.s, b.s) && Fair(script, a)
    ensures Fair(script, b) && Leads(a, b, {id}) && Budget(b) == Budget(a)
  {
    hide Grows, Uninterrupted, After, Reaches, ModuleGraph, IsCycleReport, AccountOk;
    AccountedFrame(script, a, b);
  }

  /** Those who wait for x and are not told when x fails because of one of its dependencies. */
  ghost function Overlooked(s: State, x: nat): set<(nat, nat)> {
    set y | y in Waiting(s.inverse, x) && y !in s.notified && y != x :: (x, y)
  }

  lemma FailStep(script: Script, a: Scene, b: Scene, x: nat, err: Error)
    requires b == a.(s := b.s, missed := a.missed + Overlooked(a.s, x)) && IsNotify(a.s, b.s, x, err) && Grows(a.s, b.s)
    requires Fair(script, a) && !a.flying && x !in a.s.begun && !NoErrors(a.s.modules)
    ensures Fair(script, b) && Leads(a, b, {}) && Budget(b) == Budget(a)
  {
    FailAccounted(script, a, b, x, err);
    if IsQuiet(script) {
      UninterruptedStays(a.s.log, [DependencyError(x)]);
    }
    hide Grows, Uninterrupted, After, AccountOk;
  }

  lemma FailAccounted(script: Script, a: Scene, b: Scene, x: nat, err: Error)
    requires b == a.(s := b.s, missed := a.missed + Overlooked(a.s, x)) && IsNotify(a.s, b.s, x, err)
    requires AccountOk(script, a) && !a.flying && x !in a.s.begun && !NoErrors(a.s.modules)
    ensures AccountOk(script, b)
  {
    OneEntry(a.s.log, DependencyError(x));
    assert b.s.log == a.s.log + [DependencyError(x)];
    FailHeard(a, b, x, err);
    hide HeardOk, IsEscape, ThrownOk, MadeOk, FlightOk, NoErrors, IsDisturbed, NoLoadError;
    ThrownAppend(script, a, b, DependencyError(x));
  }

  lemma FailHeard(a: Scene, b: Scene, x: nat, err: Error)
    requires b.missed == a.missed + Overlooked(a.s, x) && IsNotify(a.s, b.s, x, err)
    requires HeardOk(a.s, a.missed) && x !in a.s.begun
    ensures HeardOk(b.s, b.missed)
  {
    forall d, y | (d, y) in b.missed ensures d in b.s.notified && d !in b.s.begun && y in Waiting(b.s.inverse, d) {
      if (d, y) !in a.missed {
        assert (d, y) in Overlooked(a.s, x);
      }
    }
  }

  // ---------- completions ----------

  lemma BeginStep(script: Script, a: Scene, b: Scene, id: nat, args: seq<Argument>, reaction: Reaction)
    requires IsBegin(a.s, b.s, id, args) && Grows(a.s, b.s) && Legal(script, a) && id !in a.s.notified
    requires var calls := a.s.modules[id].callback.Factory?;
      && b == a.(s := b.s, left := if calls then a.left.(factories := Drop(a.left.factories, 1)) else a.left)
      && reaction == if calls && |a.left.factories| > 0 then a.left.factories[0] else NO_REACTION
    requires id !in a.s.ended && !a.flying
    ensures Legal(script, b) && Leads(a, b, {}) && Budget(b) + multiset(Happenings(reaction)) == Budget(a)
    ensures b.left.Size() + (if Happenings(reaction) == [] then 0 else 1) <= a.left.Size()
    ensures IsNext(script, a.s, id, reaction) && IsReactionOf(script, reaction)
    ensures a.s.modules[id].callback.Factory? || Happenings(reaction) == []
    ensures b.left.Size() < a.left.Size() || (b.left == a.left && reaction == NO_REACTION)
  {
    var e := b.s.log[|a.s.log|];
    BeginAccounted(script, a, b, id, args, e);
    NextReaction(script, a.s.log, a.left, e);
    BeginLeads(a, b, id, args);
    hide Grows, After, AccountOk, Uninterrupted, Pending, Leads;
  }

  lemma BeginLeads(a: Scene, b: Scene, id: nat, args: seq<Argument>)
    requires IsBegin(a.s, b.s, id, args) && Grows(a.s, b.s) && b == a.(s := b.s, left := b.left)
    requires b.left == a.left || b.left == a.left.(factories := Drop(a.left.factories, 1))
    ensures Leads(a, b, {})
  {
    hide Grows;
  }

  /** What the factory of id does is the next thing in the script. */
  ghost predicate IsNext(script: Script, s: State, id: nat, reaction: Reaction) {
    && id in s.modules
    && reaction ==
         if s.modules[id].callback.Factory? && Runs(s.log) < |script.factories| then script.factories[Runs(s.log)]
         else NO_REACTION
  }

  ghost predicate IsReactionOf(script: Script, reaction: Reaction) {
    reaction == NO_REACTION || reaction in script.factories
  }

  ghost predicate IsLoadOf(script: Script, load: Load) {
    load == NO_LOAD || load in script.loads
  }

  lemma ReactionFacts(script: Script, reaction: Reaction)
    requires IsReactionOf(script, reaction)
    ensures IsQuiet(script) ==> Happenings(reaction) == []
    ensures IsPeaceful(script) ==> !reaction.outcome.Threw?
    ensures AllCatch(script) ==> reaction.catches
    ensures NobodyCatches(script) && Happenings(reaction) != [] ==> !reaction.catches
  {
  }

  lemma LoadFacts(script: Script, load: Load)
    requires IsLoadOf(script, load)
    ensures IsPeaceful(script) ==> load.throws.None?
    ensures AllCatch(script) ==> load.catches
    ensures NobodyCatches(script) && load.events != [] ==> !load.catches
  {
  }

  lemma NextReaction(script: Script, log: seq<Entry>, left: Script, e: Entry)
    requires IsLeft(script, log, left)
    ensures var next := if CallsFactory(e) then left.(factories := Drop(left.factories, 1)) else left;
      var reaction := if CallsFactory(e) && |left.factories| > 0 then left.factories[0] else NO_REACTION;
      && Pending(next) + multiset(Happenings(reaction)) == Pending(left)
      && next.Size() + (if Happenings(reaction) == [] then 0 else 1) <= left.Size()
      && reaction == (if CallsFactory(e) && Runs(log) < |script.factories| then script.factories[Runs(log)]
                      else NO_REACTION)
      && (!e.ScriptRequested? ==> IsLeft(script, log + [e], next))
  {
    hide Pending, Runs, Requests, CallsFactory, Happenings;
    OneEntry(log, e);
    DropMore(script.factories, Runs(log));
    OneFactoryLess(left);
    NothingHappens();
    if |left.factories| > 0 {
      assert left.factories[0] == script.factories[Runs(log)];
    }
  }

  lemma NothingHappens()
    ensures Happenings(NO_REACTION) == []
  {
  }

  lemma OneFactoryLess(left: Script)
    ensures var next := left.(factories := Drop(left.factories, 1));
      Pending(left) == Pending(next)
        + if |left.factories| > 0 then multiset(Happenings(left.factories[0])) else multiset{}
  {
  }

  lemma BeginAccounted(script: Script, a: Scene, b: Scene, id: nat, args: seq<Argument>, e: Entry)
    requires IsBegin(a.s, b.s, id, args) && AccountOk(script, a) && id !in a.s.notified && id !in a.s.ended && !a.flying
    requires e == Completing(id, args, a.s.modules[id].callback)
    requires b == a.(s := b.s,
      left := if CallsFactory(e) then a.left.(factories := Drop(a.left.factories, 1)) else a.left)
    ensures AccountOk(script, b)
  {
    assert b.s.log == a.s.log + [e];
    BeginHeard(a, b, id, args);
    NextReaction(script, a.s.log, a.left, e);
    hide HeardOk, IsEscape, IsLeft, CalmOk, IsUnfailing, ThrownOk, MadeOk, FlightOk, Pending;
    CalmFrame(script, a, b);
    ThrownAppend(script, a, b, e);
  }

  lemma BeginHeard(a: Scene, b: Scene, id: nat, args: seq<Argument>)
    requires IsBegin(a.s, b.s, id, args) && HeardOk(a.s, a.missed) && id !in a.s.notified && b.missed == a.missed
    ensures HeardOk(b.s, b.missed)
  {
  }

  lemma ReportStep(script: Script, a: Scene, b: Scene, id: nat)
    requires b == a.(s := b.s, flying := false) && IsReport(a.s, b.s, id) && Grows(a.s, b.s) && Legal(script, a)
    ensures Legal(script, b) && Leads(a, b, {}) && Budget(b) == Budget(a)
    ensures Orderly(script, a) ==> Orderly(script, b)
  {
    AccountedAppend(script, a, b, ErrorReported(id));
    if Orderly(script, a) && IsQuiet(script) {
      UninterruptedStays(a.s.log, [ErrorReported(id)]);
    }
    hide Grows, Uninterrupted, After, AccountOk;
  }

  /** Foreign code catches the exception that is on its way. */
  lemma CatchStep(script: Script, a: Scene, b: Scene, inside: bool)
    requires b == a.(s := b.s, flying := false) && IsCatch(a.s, b.s, inside) && Grows(a.s, b.s) && Fair(script, a)
    requires inside ==> !NobodyCatches(script)
    ensures Fair(script, b) && Leads(a, b, {}) && Budget(b) == Budget(a)
  {
    GrowsLater(a.s, b.s);
    AccountedAppend(script, a, b, Caught(inside));
    if IsQuiet(script) {
      UninterruptedStays(a.s.log, [Caught(inside)]);
    }
    hide Grows, Uninterrupted, After, AccountOk, IsQuiet, NobodyCatches;
  }

  lemma FinishStep(script: Script, a: Scene, b: Scene, id: nat, m: Module)
    requires InState(a, b) && IsFinish(a.s, b.s, id, m) && Grows(a.s, b.s) && Legal(script, a) && id in a.s.begun
    requires MayEnd(script, a, id, m.exports, m.error) && IsExcusedError(script, a, id, m) && !a.flying
    ensures Legal(script, b) && Leads(a, b, {}) && Budget(b) == Budget(a)
  {
    FinishAccounted(script, a, b, id, m);
    FinishWaiting(a.s, b.s, id, m);
    hide Grows, Uninterrupted, After, AccountOk, KeepsWaiting;
  }

  /** A module that is stored with an error had it before, or has a reason for it. */
  ghost predicate IsExcusedError(script: Script, a: Scene, id: nat, m: Module) {
    id in a.s.modules && (m.error.Some? ==> a.s.modules[id].error.Some? || !IsUnfailing(script, a))
  }

  lemma FinishWaiting(s: State, t: State, id: nat, m: Module)
    requires IsFinish(s, t, id, m)
    ensures KeepsWaiting(s, t)
  {
  }

  lemma FinishAccounted(script: Script, a: Scene, b: Scene, id: nat, m: Module)
    requires InState(a, b) && IsFinish(a.s, b.s, id, m) && AccountOk(script, a) && id in a.s.begun
    requires MayEnd(script, a, id, m.exports, m.error) && IsExcusedError(script, a, id, m) && !a.flying
    ensures AccountOk(script, b)
  {
    OneEntry(a.s.log, Completed(id, m.exports, m.error));
    FinishHeard(a, b, id, m);
    hide HeardOk, IsUnfailing, CalmOk, ThrownOk, MadeOk, FlightOk, MayEnd, IsEscape;
    CalmFrame(script, a, b);
    ThrownAppend(script, a, b, Completed(id, m.exports, m.error));
  }

  lemma FinishHeard(a: Scene, b: Scene, id: nat, m: Module)
    requires InState(a, b) && IsFinish(a.s, b.s, id, m) && id in a.s.begun && HeardOk(a.s, a.missed)
    ensures HeardOk(b.s, b.missed)
  {
    forall d, x | (d, x) in b.missed ensures d in b.s.notified && d !in b.s.begun && x in Waiting(b.s.inverse, d) {
      assert d in a.s.notified && x in Waiting(a.s.inverse, d);
    }
    forall d, x | d in b.s.notified && x in Waiting(b.s.inverse, d) && x !in b.s.notified ensures (d, x) in b.missed {
      assert x in Waiting(a.s.inverse, d);
    }
  }

  lemma BuryStep(script: Script, a: Scene, b: Scene, id: nat)
    requires InState(a, b) && IsBury(a.s, b.s, id) && Grows(a.s, b.s) && Legal(script, a)
    requires IsDisturbed(script, a.occurred) && a.flying
    ensures Legal(script, b) && Leads(a, b, {}) && Budget(b) == Budget(a)
    ensures Orderly(script, a) ==> Orderly(script, b)
  {
    BuryAccounted(script, a, b, id);
    if Orderly(script, a) && IsQuiet(script) {
      UninterruptedStays(a.s.log, [Unwound(id)]);
    }
    hide Grows, Uninterrupted, After, AccountOk;
  }

  lemma BuryAccounted(script: Script, a: Scene, b: Scene, id: nat)
    requires InState(a, b) && IsBury(a.s, b.s, id) && AccountOk(script, a)
    requires IsDisturbed(script, a.occurred) && a.flying
    ensures AccountOk(script, b)
  {
    OneEntry(a.s.log, Unwound(id));
    SameHeard(a, b);
    hide HeardOk, ThrownOk, MadeOk, FlightOk, IsEscape, IsDisturbed, NoLoadError, NoErrors;
    ThrownAppend(script, a, b, Unwound(id));
  }

  lemma RequestStep(script: Script, a: Scene, b: Scene, d: nat, plugin: Option<nat>, load: Load)
    requires IsRequest(a.s, b.s, d, plugin) && Grows(a.s, b.s) && Fair(script, a) && !a.flying
    requires b == a.(s := b.s, left := a.left.(loads := Drop(a.left.loads, 1)))
    requires load == if |a.left.loads| > 0 then a.left.loads[0] else NO_LOAD
    ensures Fair(script, b) && Leads(a, b, {}) && Budget(b) + multiset(load.events) == Budget(a)
    ensures b.left.Size() + (if load.events == [] then 0 else 1) <= a.left.Size()
    ensures IsLoadOf(script, load)
  {
    if IsQuiet(script) {
      UninterruptedStays(a.s.log, [ScriptRequested(d, plugin)]);
    }
    NextLoad(script, a.s.log, a.left, d, plugin);
    RequestAccounted(script, a, b, d, plugin);
    RequestLeads(a, b, d, plugin);
    hide Grows, Uninterrupted, After, AccountOk, IsQuiet, Pending, Leads;
  }

  lemma RequestLeads(a: Scene, b: Scene, d: nat, plugin: Option<nat>)
    requires IsRequest(a.s, b.s, d, plugin) && Grows(a.s, b.s)
    requires b == a.(s := b.s, left := a.left.(loads := Drop(a.left.loads, 1)))
    ensures Leads(a, b, {})
  {
    hide Grows;
  }

  lemma RequestAccounted(script: Script, a: Scene, b: Scene, d: nat, plugin: Option<nat>)
    requires IsRequest(a.s, b.s, d, plugin) && AccountOk(script, a) && !a.flying
    requires b == a.(s := b.s, left := a.left.(loads := Drop(a.left.loads, 1)))
    ensures AccountOk(script, b)
  {
    NextLoad(script, a.s.log, a.left, d, plugin);
    SameHeard(a, b);
    hide HeardOk, IsLeft, CalmOk, IsUnfailing, ThrownOk, MadeOk, FlightOk, IsEscape, Pending;
    CalmFrame(script, a, b);
    ThrownAppend(script, a, b, ScriptRequested(d, plugin));
  }

  lemma SameHeard(a: Scene, b: Scene)
    requires HeardOk(a.s, a.missed) && b.missed == a.missed
    requires b.s.notified == a.s.notified && b.s.inverse == a.s.inverse && b.s.begun == a.s.begun
    ensures HeardOk(b.s, b.missed)
  {
  }

  lemma NextLoad(script: Script, log: seq<Entry>, left: Script, d: nat, plugin: Option<nat>)
    requires IsLeft(script, log, left)
    ensures var next := left.(loads := Drop(left.loads, 1));
      var load := if |left.loads| > 0 then left.loads[0] else NO_LOAD;
      && IsLeft(script, log + [ScriptRequested(d, plugin)], next)
      && Pending(next) + multiset(load.events) == Pending(left)
      && next.Size() + (if load.events == [] then 0 else 1) <= left.Size()
      && IsLoadOf(script, load)
  {
    OneEntry(log, ScriptRequested(d, plugin));
    DropMore(script.loads, Requests(log));
    if |left.loads| > 0 {
      assert left.loads[0] == script.loads[Requests(log)];
    }
  }
}
