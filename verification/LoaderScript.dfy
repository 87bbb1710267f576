/**
 What drives the module manager from outside, and what can be said of a whole run in these terms.

 Foreign code (the script loader, a plugin, a factory) is a call that may make any sequence of events happen before it
 returns or throws. A script lists these calls in advance, those to loaders and plugins and those to factories, each in
 the order in which they are made. When a list is used up, foreign code does nothing by itself, so that every finite
 run, nested or not, is the run of some script and some list of outermost events.
 */
module LoaderScripts {
  import opened Basics
  import opened Graphs
  import opened LoaderState
  import opened LoaderSteps
  import opened LoaderCompletion

  datatype Event =
    | Define(id: nat, deps: seq<Dependency>, callback: Callback, hasErrorback: bool)
    | DefineAnonymous(deps: seq<Dependency>, callback: Callback)
    | LoadOk(id: nat)
    | LoadError(id: nat, token: nat)

  datatype AnonymousCall = AnonymousCall(deps: seq<Dependency>, callback: Callback)

  /** One call to the script loader or a plugin: it may catch what its events throw, and it may throw by itself. */
  datatype Load = Load(events: seq<Event>, catches: bool, throws: Option<nat>)

  /** One call of a factory. */
  datatype Reaction = Reaction(events: seq<Event>, catches: bool, outcome: FactoryOutcome)

  datatype Script = Script(loads: seq<Load>, factories: seq<Reaction>) {
    function Size(): nat {
      |loads| + |factories|
    }
  }

  const NO_LOAD: Load := Load([], true, None)
  const NO_REACTION: Reaction := Reaction([], true, Returned(None, true))

  /** A factory that is not invoked makes nothing happen. */
  function Happenings(r: Reaction): seq<Event> {
    if r.outcome.NotInvoked? then [] else r.events
  }

  // ---------- which definition an id gets ----------

  datatype Tables = Tables(defs: map<nat, Definition>, anonymous: Option<AnonymousCall>)

  /** The first definition of an id stays. */
  function WithDefinition(t: Tables, id: nat, def: Definition): Tables {
    if id in t.defs then t else t.(defs := t.defs[id := def])
  }

  function Effect(t: Tables, e: Event): Tables {
    match e
    case Define(id, deps, callback, hasErrorback) => WithDefinition(t, id, Definition(deps, callback, hasErrorback))
    case DefineAnonymous(deps, callback) =>
      if t.anonymous.None? then t.(anonymous := Some(AnonymousCall(deps, callback))) else t
    case LoadOk(id) =>
      if t.anonymous.None? then t
      else
        var call := t.anonymous.value;
        WithDefinition(t.(anonymous := None), id, Definition(call.deps, call.callback, false))
    case LoadError(id, _) => WithDefinition(t, id, PLACEHOLDER)
  }

  /** The definitions, and the anonymous one in waiting, that any events leave behind. */
  function After(events: seq<Event>): Tables {
    if |events| == 0 then Tables(map[], None) else Effect(After(events[..|events| - 1]), events[|events| - 1])
  }

  /** What an id has been defined with never changes. */
  lemma {:induction false} FirstDefinitionStays(events: seq<Event>, i: nat, id: nat)
    requires i <= |events| && id in After(events[..i]).defs
    ensures id in After(events).defs && After(events).defs[id] == After(events[..i]).defs[id]
  {
    if i < |events| {
      assert events[..|events| - 1][..i] == events[..i];
      FirstDefinitionStays(events[..|events| - 1], i, id);
    } else {
      assert events[..i] == events;
    }
  }

  ghost predicate IsAnonymous(e: Event, def: Definition) {
    e == DefineAnonymous(def.deps, def.callback) && !def.hasErrorback
  }

  /** No script has been loaded from event number j on. */
  ghost predicate NoLoadSince(events: seq<Event>, j: nat) {
    forall k :: j <= k < |events| ==> !events[k].LoadOk?
  }

  /** After each anonymous definition a script has been loaded. */
  ghost predicate AllNamed(events: seq<Event>) {
    forall k: nat :: k < |events| && events[k].DefineAnonymous? ==> !NoLoadSince(events, k)
  }

  /** Event number j is the first anonymous definition since a script was last loaded. */
  ghost predicate IsFirstSinceLoad(events: seq<Event>, j: nat) {
    j < |events| && events[j].DefineAnonymous? && NoLoadSince(events, j) && AllNamed(events[..j])
  }

  lemma AfterOne(events: seq<Event>, e: Event)
    ensures After(events + [e]) == Effect(After(events), e)
  {
    assert (events + [e])[..|events|] == events;
  }

  lemma NamedLater(events: seq<Event>, e: Event)
    ensures e.LoadOk? ==> AllNamed(events + [e])
    ensures !e.LoadOk? && !e.DefineAnonymous? ==> (AllNamed(events + [e]) <==> AllNamed(events))
    ensures e.DefineAnonymous? ==> !AllNamed(events + [e])
    ensures forall j: nat :: !e.LoadOk? && IsFirstSinceLoad(events, j) ==> IsFirstSinceLoad(events + [e], j)
    ensures e.DefineAnonymous? && AllNamed(events) ==> IsFirstSinceLoad(events + [e], |events|)
  {
    var more := events + [e];
    var n := |events|;
    assert more[n] == e && more[..n] == events;
    assert forall k :: 0 <= k < n ==> more[k] == events[k];
    forall k: nat | k < n ensures NoLoadSince(more, k) <==> NoLoadSince(events, k) && !e.LoadOk? {
      if NoLoadSince(more, k) {
        assert forall m :: k <= m < n ==> events[m] == more[m];
      }
    }
    assert e.DefineAnonymous? ==> NoLoadSince(more, n);
    forall j: nat | !e.LoadOk? && IsFirstSinceLoad(events, j) ensures IsFirstSinceLoad(more, j) {
      assert more[..j] == events[..j];
    }
  }

  /** The anonymous definition that waits for its name is the first one since a script was last loaded. */
  lemma {:induction false} PendingIsFirst(events: seq<Event>) returns (j: nat)
    ensures var a := After(events).anonymous;
      && (a.None? <==> AllNamed(events))
      && (a.Some? ==>
            IsFirstSinceLoad(events, j) && IsAnonymous(events[j], Definition(a.value.deps, a.value.callback, false)))
  {
    j := 0;
    if |events| == 0 {
    } else {
      var n := |events| - 1;
      var shorter := events[..n];
      j := PendingIsFirst(shorter);
      assert events == shorter + [events[n]];
      AfterOne(shorter, events[n]);
      NamedLater(shorter, events[n]);
      hide AllNamed, After, IsFirstSinceLoad;
      if After(shorter).anonymous.None? && events[n].DefineAnonymous? {
        j := n;
      } else if After(shorter).anonymous.Some? {
        FirstIsInside(shorter, j);
      }
    }
  }

  lemma FirstIsInside(events: seq<Event>, j: nat)
    requires IsFirstSinceLoad(events, j)
    ensures j < |events| && !AllNamed(events)
  {
  }

  lemma OnlyOneIsFirst(events: seq<Event>, i: nat, j: nat)
    requires IsFirstSinceLoad(events, i) && IsFirstSinceLoad(events, j)
    ensures i == j
  {
    if i < j {
      NamedBefore(events, i, j);
    } else if j < i {
      NamedBefore(events, j, i);
    }
  }

  lemma NamedBefore(events: seq<Event>, i: nat, j: nat)
    requires i < j <= |events| && events[i].DefineAnonymous? && AllNamed(events[..j])
    ensures !NoLoadSince(events, i)
  {
    assert events[..j][i] == events[i] && !NoLoadSince(events[..j], i);
    var m :| i <= m < j && events[..j][m].LoadOk?;
    assert events[m].LoadOk?;
  }

  /** A script that has loaded uses the anonymous definition up, whether it defines something with it or not. */
  lemma LoadUsesUp(events: seq<Event>, id: nat)
    ensures After(events + [LoadOk(id)]).anonymous.None?
    ensures AllNamed(events) ==> After(events + [LoadOk(id)]) == After(events)
  {
    AfterOne(events, LoadOk(id));
    var j := PendingIsFirst(events);
  }

  /** A script that has loaded gets the first anonymous definition since the last one, unless its id is defined. */
  lemma LoadNamesFirst(events: seq<Event>, id: nat, j: nat)
    requires IsFirstSinceLoad(events, j) && id !in After(events).defs
    ensures After(events + [LoadOk(id)]).defs
      == After(events).defs[id := Definition(events[j].deps, events[j].callback, false)]
  {
    AfterOne(events, LoadOk(id));
    var i := PendingIsFirst(events);
    FirstIsInside(events, j);
    OnlyOneIsFirst(events, i, j);
  }

  /** The script whose loading is event number i gives its name to the anonymous definition that is event number j. */
  ghost predicate IsNamed(events: seq<Event>, j: nat, i: nat) {
    i < |events| && events[i].LoadOk? && IsFirstSinceLoad(events[..i], j)
  }

  /** No two scripts get the same anonymous definition: the later one gets one made after the earlier one had loaded. */
  lemma NamedOnce(events: seq<Event>, j: nat, i: nat, l: nat, k: nat)
    requires IsNamed(events, j, i) && IsNamed(events, l, k) && i < k
    ensures j < i < l < k
  {
    assert events[..k][i] == events[i];
  }

  /** Every definition has been asked for: by name, by a script with an anonymous one, or by a failure to load. */
  lemma {:induction false} DefinitionHasSource(events: seq<Event>, id: nat) returns (i: nat)
    requires id in After(events).defs
    ensures i < |events| && id !in After(events[..i]).defs
    ensures var def := After(events).defs[id];
      || events[i] == Define(id, def.deps, def.callback, def.hasErrorback)
      || (events[i] == LoadOk(id) && exists j: nat :: IsNamed(events, j, i) && j < i && IsAnonymous(events[j], def))
      || (events[i].LoadError? && events[i].id == id && def == PLACEHOLDER)
  {
    var n := |events| - 1;
    var def := After(events).defs[id];
    if id in After(events[..n]).defs {
      i := DefinitionHasSource(events[..n], id);
      assert events[..n][..i] == events[..i];
      if events[i].LoadOk? {
        var j: nat :| IsNamed(events[..n], j, i) && j < i && IsAnonymous(events[..n][j], def);
        assert IsNamed(events, j, i) && IsAnonymous(events[j], def);
      }
    } else {
      i := n;
      if events[n].LoadOk? {
        var j := PendingIsFirst(events[..n]);
        assert IsNamed(events, j, n) && IsAnonymous(events[j], def);
      }
    }
  }

  // ---------- nothing happens that has not been asked for ----------

  function LoadEvents(loads: seq<Load>): multiset<Event> {
    if |loads| == 0 then multiset{} else multiset(loads[0].events) + LoadEvents(loads[1..])
  }

  function FactoryEvents(factories: seq<Reaction>): multiset<Event> {
    if |factories| == 0 then multiset{} else multiset(Happenings(factories[0])) + FactoryEvents(factories[1..])
  }

  function Pending(script: Script): multiset<Event> {
    LoadEvents(script.loads) + FactoryEvents(script.factories)
  }

  /** What a script makes happen: all events of its loads, and of its factories except those that are not invoked. */
  lemma PendingIsGiven(load: Load, reaction: Reaction, loads: seq<Load>, factories: seq<Reaction>)
    ensures Pending(Script([], [])) == multiset{}
    ensures Pending(Script([load] + loads, factories)) == multiset(load.events) + Pending(Script(loads, factories))
    ensures Pending(Script(loads, [reaction] + factories)) == Pending(Script(loads, factories))
      + if reaction.outcome.NotInvoked? then multiset{} else multiset(reaction.events)
  {
    assert ([load] + loads)[1..] == loads && ([reaction] + factories)[1..] == factories;
  }

  function Drop<T>(s: seq<T>, n: nat): seq<T> {
    s[Least(n, |s|)..]
  }

  lemma DropMore<T>(s: seq<T>, n: nat)
    ensures Drop(s, n + 1) == Drop(Drop(s, n), 1)
  {
  }

  /** How often a loader or a plugin has been called. */
  ghost function Requests(log: seq<Entry>): nat {
    if |log| == 0 then 0 else Requests(log[..|log| - 1]) + if log[|log| - 1].ScriptRequested? then 1 else 0
  }

  ghost predicate CallsFactory(e: Entry) {
    e.Completing? && e.callback.Factory?
  }

  /** How often a factory has been called. */
  ghost function Runs(log: seq<Entry>): nat {
    if |log| == 0 then 0 else Runs(log[..|log| - 1]) + if CallsFactory(log[|log| - 1]) then 1 else 0
  }

  lemma OneEntry(log: seq<Entry>, e: Entry)
    ensures Requests(log + [e]) == Requests(log) + if e.ScriptRequested? then 1 else 0
    ensures Runs(log + [e]) == Runs(log) + if CallsFactory(e) then 1 else 0
  {
    assert (log + [e])[..|log|] == log;
  }

  lemma {:induction false} DependencyErrorsCallNothing(log: seq<Entry>, more: seq<Entry>)
    requires forall i :: 0 <= i < |more| ==> !more[i].ScriptRequested? && !CallsFactory(more[i])
    ensures Requests(log + more) == Requests(log) && Runs(log + more) == Runs(log)
    decreases |more|
  {
    if |more| == 0 {
      assert log + more == log;
    } else {
      var n := |more| - 1;
      assert log + more == (log + more[..n]) + [more[n]];
      DependencyErrorsCallNothing(log, more[..n]);
      OneEntry(log + more[..n], more[n]);
    }
  }

  // ---------- factories that make nothing happen ----------

  ghost predicate IsQuiet(script: Script) {
    forall i :: 0 <= i < |script.factories| ==> Happenings(script.factories[i]) == []
  }

  /** A completion that begins at i ends right after it, but for an error report, or is cut short at once. */
  ghost predicate EndsAtOnce(log: seq<Entry>, i: int, x: nat) {
    || EndsAt(log, i + 1, x)
    || (0 <= i + 1 < |log| && log[i + 1].ErrorReported? && EndsAt(log, i + 2, x))
    || (0 <= i + 1 < |log| && log[i + 1] == Unwound(x))
  }

  /** No event happens while a factory runs. */
  ghost predicate Uninterrupted(log: seq<Entry>) {
    forall i, x :: BeginsAt(log, i, x) ==> EndsAtOnce(log, i, x)
  }

  lemma UninterruptedStays(log: seq<Entry>, more: seq<Entry>)
    requires Uninterrupted(log) && forall i :: 0 <= i < |more| ==> !more[i].Completing?
    ensures Uninterrupted(log + more)
  {
    var longer := log + more;
    forall i, x | BeginsAt(longer, i, x) ensures EndsAtOnce(longer, i, x) {
      assert BeginsAt(log, i, x);
    }
  }

  lemma UninterruptedCompletion(log: seq<Entry>, x: nat, middle: seq<Entry>, last: Entry)
    requires Uninterrupted(log) && |middle| > 0 && middle[0].Completing? && middle[0].id == x
    requires (|middle| == 1 && last.Completed? && last.id == x) || (|middle| == 1 && last == Unwound(x))
      || (|middle| == 2 && middle[1].ErrorReported? && last.Completed? && last.id == x)
    ensures Uninterrupted(log + middle + [last])
  {
    var longer := log + middle + [last];
    forall i, y | BeginsAt(longer, i, y) ensures EndsAtOnce(longer, i, y) {
      if i < |log| {
        assert BeginsAt(log, i, y);
      }
    }
  }

  // ---------- failures that are passed on, and failures that are not ----------

  /**
   The pairs of a failed module and one that waits for it without having been told. A pair comes about when a module
   fails because of a dependency that is found to have failed before; the waiting module then waits for ever.
   */
  ghost predicate HeardOk(s: State, missed: set<(nat, nat)>) {
    && (forall d, x :: d in s.notified && x in Waiting(s.inverse, d) && x !in s.notified ==> (d, x) in missed)
    && (forall d, x :: (d, x) in missed ==> d in s.notified && d !in s.begun && x in Waiting(s.inverse, d))
  }

  // ---------- what exceptions and failures come from ----------

  ghost predicate AllCatch(script: Script) {
    && (forall i :: 0 <= i < |script.loads| ==> script.loads[i].catches)
    && (forall i :: 0 <= i < |script.factories| ==> script.factories[i].catches)
  }

  /** No loader, plugin or factory throws by itself. */
  ghost predicate IsPeaceful(script: Script) {
    && (forall i :: 0 <= i < |script.loads| ==> script.loads[i].throws.None?)
    && (forall i :: 0 <= i < |script.factories| ==> !script.factories[i].outcome.Threw?)
  }

  /** An anonymous definition has been made while another one was waiting for its name; this throws. */
  ghost predicate SecondAnonymous(events: seq<Event>) {
    exists i :: 0 <= i < |events| && events[i].DefineAnonymous? && After(events[..i]).anonymous.Some?
  }

  /** Some exception may have passed through the manager. */
  ghost predicate IsDisturbed(script: Script, occurred: seq<Event>) {
    !IsPeaceful(script) || (!AllCatch(script) && SecondAnonymous(occurred))
  }

  ghost predicate NoLoadError(events: seq<Event>) {
    forall i :: 0 <= i < |events| ==> !events[i].LoadError?
  }

  ghost predicate NoErrors(modules: map<nat, Module>) {
    forall x :: x in modules ==> modules[x].error.None?
  }

  lemma SecondAnonymousStays(events: seq<Event>, more: seq<Event>)
    requires events <= more && SecondAnonymous(events)
    ensures SecondAnonymous(more)
  {
    var i :| 0 <= i < |events| && events[i].DefineAnonymous? && After(events[..i]).anonymous.Some?;
    assert more[..i] == events[..i];
  }

  lemma DisturbedStays(script: Script, events: seq<Event>, more: seq<Event>)
    requires events <= more
    ensures IsDisturbed(script, events) ==> IsDisturbed(script, more)
    ensures NoLoadError(more) ==> NoLoadError(events)
  {
    if SecondAnonymous(events) {
      SecondAnonymousStays(events, more);
    }
    assert forall i :: 0 <= i < |events| ==> events[i] == more[i];
  }

  /** What has been thrown is on its way, and has its reason. */
  ghost predicate Excused(script: Script, a: Scene, thrown: Option<nat>) {
    (thrown.Some? <==> a.flying) && (thrown.Some? ==> IsDisturbed(script, a.occurred))
  }

  /** No loader, plugin or factory catches what its events throw. */
  ghost predicate NobodyCatches(script: Script) {
    && (forall i :: 0 <= i < |script.loads| ==> !script.loads[i].catches)
    && (forall i :: 0 <= i < |script.factories| ==> !script.factories[i].catches)
  }

  /** The exception goes on to the next activity, or is caught by foreign code, or turned into an error and reported. */
  ghost predicate IsPassedOn(e: Entry) {
    e.Unwound? || e.Caught? || e.ErrorReported?
  }

  /** While an exception is on its way nothing happens but that one activity after the other is cut short. */
  ghost predicate FlightOk(script: Script, a: Scene) {
    && (forall k :: 0 <= k < |a.s.log| - 1 && a.s.log[k].Unwound? ==> IsPassedOn(a.s.log[k + 1]))
    && (|a.s.log| > 0 && a.s.log[|a.s.log| - 1].Unwound? ==> a.flying)
    && (NobodyCatches(script) ==> forall k :: 0 <= k < |a.s.log| ==> a.s.log[k] != Caught(true))
  }

  lemma FlightFrame(script: Script, a: Scene, b: Scene)
    requires FlightOk(script, a) && b.s.log == a.s.log && (a.flying ==> b.flying)
    ensures FlightOk(script, b)
  {
  }

  lemma FlightAppend(script: Script, a: Scene, b: Scene, e: Entry)
    requires FlightOk(script, a) && b.s.log == a.s.log + [e]
    requires (a.flying ==> IsPassedOn(e)) && (e.Unwound? ==> b.flying)
    requires e == Caught(true) ==> !NobodyCatches(script)
    ensures FlightOk(script, b)
  {
  }

  lemma FlightAppendAll(script: Script, a: Scene, b: Scene, more: seq<Entry>)
    requires FlightOk(script, a) && b.s.log == a.s.log + more && !a.flying
    requires forall i :: 0 <= i < |more| ==> !more[i].Unwound? && !more[i].Caught?
    ensures FlightOk(script, b)
  {
    forall k | 0 <= k < |b.s.log| - 1 && b.s.log[k].Unwound? ensures IsPassedOn(b.s.log[k + 1]) {
      assert k < |a.s.log| - 1;
    }
  }

  /**
   Events are dropped only if something does not catch; nothing is cut short without an exception; and no module fails
   unless a script failed to load or an exception was turned into an error.
   */
  ghost predicate CalmOk(script: Script, a: Scene) {
    && (AllCatch(script) ==> a.dropped == multiset{})
    && (!IsDisturbed(script, a.occurred) ==> a.s.dead == Idle)
    && (IsUnfailing(script, a) ==> a.s.notified == {} && NoErrors(a.s.modules))
  }

  ghost predicate IsUnfailing(script: Script, a: Scene) {
    NoLoadError(a.occurred) && (!a.catchError || !IsDisturbed(script, a.occurred))
  }

  /** The factory call number r ends with an exception that nothing catches. */
  ghost predicate IsEscape(script: Script, catchError: bool, r: nat) {
    r < |script.factories| && script.factories[r].outcome.Threw? && !catchError
  }

  /** A module whose factory is left by an exception never comes to an end. */
  ghost predicate ThrownOk(script: Script, a: Scene) {
    forall k :: 0 <= k < |a.s.log| && CallsFactory(a.s.log[k]) && IsEscape(script, a.catchError, Runs(a.s.log[..k])) ==>
      a.s.log[k].id !in a.s.ended
  }

  /** What the script says of the factory call number r. */
  ghost function FactoryCall(script: Script, r: nat): Reaction {
    if r < |script.factories| then script.factories[r] else NO_REACTION
  }

  /** What a factory that ends in this way makes of module x, whose error may by then be that of a dependency. */
  ghost predicate IsMade(x: nat, deps: seq<Dependency>, outcome: FactoryOutcome, exports: Value, error: Option<Error>,
      told: bool)
  {
    match outcome
    case Threw(token) => exports == Fresh(x) && (told || error == Some(Error(InFactory, x, token)))
    case Returned(result, exportsEmpty) =>
      && exports == (if result.Some? && (!PassesExports(deps) || exportsEmpty) then result.value else Fresh(x))
      && (told || error.None?)
    case NotInvoked(exportsEmpty) =>
      exports == (if !PassesExports(deps) || exportsEmpty then Null else Fresh(x)) && (told || error.None?)
  }

  /** The factory ends as the script says, or with an exception of an event that it has caused and does not catch. */
  ghost predicate IsMadeBy(x: nat, deps: seq<Dependency>, reaction: Reaction, exports: Value, error: Option<Error>,
      told: bool)
  {
    || IsMade(x, deps, reaction.outcome, exports, error, told)
    || (&& Happenings(reaction) != [] && !reaction.catches
        && exists token :: IsMade(x, deps, Threw(token), exports, error, told))
  }

  /** Every module with a factory that has come to an end is what this call of its factory has made of it. */
  ghost predicate MadeOk(script: Script, a: Scene) {
    forall k, e :: 0 <= k < e && e < |a.s.log| && CallsFactory(a.s.log[k]) && EndsAt(a.s.log, e, a.s.log[k].id) ==>
      IsMadeAt(script, a, k, e)
  }

  /** No call of the factory of x so far is left by an exception: this is what it has made of x, and reported. */
  ghost predicate MayEnd(script: Script, a: Scene, x: nat, exports: Value, error: Option<Error>) {
    forall k :: 0 <= k < |a.s.log| && CallsFactory(a.s.log[k]) && a.s.log[k].id == x ==>
      && !IsEscape(script, a.catchError, Runs(a.s.log[..k]))
      && x in a.s.declared
      && IsMadeBy(x, a.s.declared[x], FactoryCall(script, Runs(a.s.log[..k])), exports, error, x in a.s.notified)
      && (FactoryCall(script, Runs(a.s.log[..k])).outcome.Threw? ==> a.s.log[|a.s.log| - 1] == ErrorReported(x))
  }

  lemma MadeLater(x: nat, deps: seq<Dependency>, reaction: Reaction, exports: Value, error: Option<Error>, told: bool)
    requires IsMadeBy(x, deps, reaction, exports, error, told)
    ensures IsMadeBy(x, deps, reaction, exports, error, true)
  {
    if !IsMade(x, deps, reaction.outcome, exports, error, told) {
      var token :| IsMade(x, deps, Threw(token), exports, error, told);
      assert IsMade(x, deps, Threw(token), exports, error, true);
    }
  }

  /** Definitions and failures do not go away. */
  ghost predicate IsLater(s: State, t: State) {
    && s.notified <= t.notified
    && forall x :: x in s.declared ==> x in t.declared && t.declared[x] == s.declared[x]
  }

  lemma GrowsLater(s: State, t: State)
    requires Grows(s, t)
    ensures IsLater(s, t)
  {
  }

  ghost predicate IsMadeAt(script: Script, a: Scene, k: nat, e: nat)
    requires k < |a.s.log| && e < |a.s.log| && a.s.log[k].Completing? && a.s.log[e].Completed?
  {
    var x := a.s.log[k].id;
    && x in a.s.declared
    && IsMadeBy(x, a.s.declared[x], FactoryCall(script, Runs(a.s.log[..k])), a.s.log[e].exports, a.s.log[e].error,
         x in a.s.notified)
    && (FactoryCall(script, Runs(a.s.log[..k])).outcome.Threw? ==> e > 0 && a.s.log[e - 1] == ErrorReported(x))
  }

  lemma MadeStays(script: Script, a: Scene, b: Scene, k: nat, e: nat)
    requires a.s.log <= b.s.log && IsLater(a.s, b.s)
    requires k < e < |a.s.log| && CallsFactory(a.s.log[k]) && a.s.log[e].Completed? && IsMadeAt(script, a, k, e)
    ensures IsMadeAt(script, b, k, e)
  {
    hide IsMadeBy;
    assert b.s.log[..k] == a.s.log[..k] && b.s.log[k] == a.s.log[k] && b.s.log[e] == a.s.log[e];
    var x, r := a.s.log[k].id, FactoryCall(script, Runs(a.s.log[..k]));
    MadeLater(x, a.s.declared[x], r, a.s.log[e].exports, a.s.log[e].error, x in a.s.notified);
  }

  /** What has been made stays so when nothing else comes to an end. */
  lemma MadeFrame(script: Script, a: Scene, b: Scene)
    requires MadeOk(script, a) && IsLater(a.s, b.s) && a.s.log <= b.s.log
    requires forall e :: |a.s.log| <= e < |b.s.log| ==> !b.s.log[e].Completed?
    ensures MadeOk(script, b)
  {
    hide IsMadeAt, IsLater;
    forall k, e | 0 <= k < e && e < |b.s.log| && CallsFactory(b.s.log[k]) && EndsAt(b.s.log, e, b.s.log[k].id)
      ensures IsMadeAt(script, b, k, e)
    {
      assert b.s.log[k] == a.s.log[k] && b.s.log[e] == a.s.log[e];
      assert EndsAt(a.s.log, e, a.s.log[k].id);
      MadeStays(script, a, b, k, e);
    }
  }

  lemma MadeAppend(script: Script, a: Scene, b: Scene, last: Entry)
    requires MadeOk(script, a) && IsLater(a.s, b.s) && b.s.log == a.s.log + [last] && last.Completed?
    requires MayEnd(script, a, last.id, last.exports, last.error) && b.s.notified == a.s.notified
    ensures MadeOk(script, b)
  {
    hide IsMadeBy;
    var n := |a.s.log|;
    forall k, e | 0 <= k < e && e < |b.s.log| && CallsFactory(b.s.log[k]) && EndsAt(b.s.log, e, b.s.log[k].id)
      ensures IsMadeAt(script, b, k, e)
    {
      assert b.s.log[k] == a.s.log[k] && b.s.log[..k] == a.s.log[..k];
      if e < n {
        assert EndsAt(a.s.log, e, a.s.log[k].id);
        MadeStays(script, a, b, k, e);
      }
    }
  }

  lemma CalmFrame(script: Script, a: Scene, b: Scene)
    requires CalmOk(script, a) && b.occurred == a.occurred && b.dropped == a.dropped && b.catchError == a.catchError
    requires b.s.dead == a.s.dead && b.s.notified == a.s.notified
    requires IsUnfailing(script, a) && NoErrors(a.s.modules) ==> NoErrors(b.s.modules)
    ensures CalmOk(script, b)
  {
    hide IsDisturbed, NoLoadError, NoErrors, AllCatch;
  }

  lemma ThrownAppend(script: Script, a: Scene, b: Scene, e: Entry)
    requires ThrownOk(script, a) && b.s.log == a.s.log + [e] && b.catchError == a.catchError
    requires b.s.ended == a.s.ended + if e.Completed? then {e.id} else {}
    requires e.Completing? ==> e.id !in a.s.ended
    requires e.Completed? ==> MayEnd(script, a, e.id, e.exports, e.error) && b.s.notified == a.s.notified
    requires MadeOk(script, a) && IsLater(a.s, b.s)
    requires FlightOk(script, a) && (a.flying ==> IsPassedOn(e)) && (e.Unwound? ==> b.flying)
    requires e == Caught(true) ==> !NobodyCatches(script)
    ensures ThrownOk(script, b) && MadeOk(script, b) && FlightOk(script, b)
  {
    hide IsMadeBy, MadeOk, IsLater, FlightOk, IsPassedOn, NobodyCatches;
    FlightAppend(script, a, b, e);
    if e.Completed? {
      MadeAppend(script, a, b, e);
    } else {
      MadeFrame(script, a, b);
    }
    forall k | 0 <= k < |b.s.log| && CallsFactory(b.s.log[k]) && IsEscape(script, b.catchError, Runs(b.s.log[..k]))
      ensures b.s.log[k].id !in b.s.ended
    {
      if k < |a.s.log| {
        assert b.s.log[..k] == a.s.log[..k] && b.s.log[k] == a.s.log[k];
      }
    }
  }

  lemma ThrownAppendAll(script: Script, a: Scene, b: Scene, more: seq<Entry>)
    requires ThrownOk(script, a) && b.s.log == a.s.log + more && b.catchError == a.catchError
    requires b.s.ended == a.s.ended && forall i :: 0 <= i < |more| ==> !more[i].Completing? && !more[i].Completed?
    requires MadeOk(script, a) && IsLater(a.s, b.s)
    requires FlightOk(script, a) && !a.flying && forall i :: 0 <= i < |more| ==> !more[i].Unwound? && !more[i].Caught?
    ensures ThrownOk(script, b) && MadeOk(script, b) && FlightOk(script, b)
  {
    hide MadeOk, IsLater, FlightOk;
    FlightAppendAll(script, a, b, more);
    MadeFrame(script, a, b);
    forall k | 0 <= k < |b.s.log| && CallsFactory(b.s.log[k]) && IsEscape(script, b.catchError, Runs(b.s.log[..k]))
      ensures b.s.log[k].id !in b.s.ended
    {
      assert k < |a.s.log|;
      assert b.s.log[..k] == a.s.log[..k] && b.s.log[k] == a.s.log[k];
    }
  }

  // ---------- the state of a run ----------

  datatype Scene = Scene(
    s: State,
    anonymous: Option<AnonymousCall>,
    left: Script,
    occurred: seq<Event>,
    dropped: multiset<Event>,
    missed: set<(nat, nat)>,
    catchError: bool,
    flying: bool)

  /** All events that have happened, have been dropped because of an exception, or are still to come. */
  ghost function Budget(a: Scene): multiset<Event> {
    multiset(a.occurred) + a.dropped + Pending(a.left)
  }

  /** Each call to foreign code has used up its place in the script, and what has gone wrong has its reasons. */
  ghost predicate AccountOk(script: Script, a: Scene) {
    && IsLeft(script, a.s.log, a.left)
    && HeardOk(a.s, a.missed)
    && CalmOk(script, a)
    && ThrownOk(script, a)
    && MadeOk(script, a)
    && FlightOk(script, a)
  }

  /** Every definition is the first one that occurred. */
  ghost predicate Legal(script: Script, a: Scene) {
    Tables(a.s.defs, a.anonymous) == After(a.occurred) && AccountOk(script, a)
  }

  ghost predicate IsLeft(script: Script, log: seq<Entry>, left: Script) {
    left == Script(Drop(script.loads, Requests(log)), Drop(script.factories, Runs(log)))
  }

  ghost predicate Orderly(script: Script, a: Scene) {
    IsQuiet(script) ==> Uninterrupted(a.s.log)
  }

  /** Complete modules stay complete, and a counter comes down to zero only for a module that is completed. */
  ghost predicate Steady(before: map<nat, Module>, after: map<nat, Module>, except: set<nat>) {
    forall x :: x in before && x !in except ==>
      && x in after
      && (before[x].isComplete ==> after[x].isComplete)
      && (before[x].unresolved > 0 ==> after[x].isComplete || after[x].unresolved > 0)
  }

  /** Only modules defined in between have dropped dependencies. */
  ghost predicate NewBreaks(s: State, t: State, except: set<nat>) {
    forall x, d :: (x, d) in t.broken && (x, d) !in s.broken ==> x !in s.modules || x in except
  }

  /** Who waits goes on waiting until the other module has come to an end. */
  ghost predicate KeepsWaiting(s: State, t: State) {
    forall d, x :: x in Waiting(s.inverse, d) ==> x in Waiting(t.inverse, d) || d in t.ended
  }

  /** What any piece of a run does, but for the modules in except. */
  ghost predicate Leads(a: Scene, b: Scene, except: set<nat>) {
    && Grows(a.s, b.s)
    && a.occurred <= b.occurred
    && a.missed <= b.missed
    && b.left.Size() <= a.left.Size()
    && Steady(a.s.modules, b.s.modules, except)
    && NewBreaks(a.s, b.s, except)
    && KeepsWaiting(a.s, b.s)
  }

  /** When nothing in the script has been used, foreign code has failed nothing and thrown nothing. */
  ghost predicate Still(a: Scene, b: Scene) {
    b.left.Size() == a.left.Size() ==>
      && b.s.notified == a.s.notified && b.s.dead == a.s.dead && b.missed == a.missed
      && b.occurred == a.occurred && b.anonymous == a.anonymous
  }

  lemma GrowsReflexive(s: State)
    ensures Grows(s, s)
  {
  }

  lemma GrowsTransitive(s: State, t: State, u: State)
    requires Grows(s, t) && Grows(t, u)
    ensures Grows(s, u)
  {
  }

  lemma LeadsReflexive(a: Scene, except: set<nat>)
    ensures Leads(a, a, except)
  {
  }

  lemma LeadsTransitive(a: Scene, b: Scene, c: Scene, except: set<nat>)
    requires Leads(a, b, except) && Leads(b, c, except)
    ensures Leads(a, c, except)
  {
    hide Grows, Steady, NewBreaks, KeepsWaiting;
    GrowsTransitive(a.s, b.s, c.s);
    WaitingTransitive(a.s, b.s, c.s);
    SteadyTransitive(a.s.modules, b.s.modules, c.s.modules, except);
    BreaksTransitive(a.s, b.s, c.s, except);
  }

  lemma WaitingTransitive(s: State, t: State, u: State)
    requires KeepsWaiting(s, t) && KeepsWaiting(t, u) && Grows(t, u)
    ensures KeepsWaiting(s, u)
  {
    forall d, x | x in Waiting(s.inverse, d) ensures x in Waiting(u.inverse, d) || d in u.ended {
      if d in t.ended {
        assert d in u.ended;
      } else {
        assert x in Waiting(t.inverse, d);
      }
    }
  }

  lemma SteadyTransitive(l: map<nat, Module>, m: map<nat, Module>, n: map<nat, Module>, except: set<nat>)
    requires Steady(l, m, except) && Steady(m, n, except)
    ensures Steady(l, n, except)
  {
    forall x | x in l && x !in except
      ensures x in n && (l[x].isComplete ==> n[x].isComplete)
      ensures l[x].unresolved > 0 ==> n[x].isComplete || n[x].unresolved > 0
    {
      assert x in m;
    }
  }

  lemma BreaksTransitive(s: State, t: State, u: State, except: set<nat>)
    requires NewBreaks(s, t, except) && NewBreaks(t, u, except) && Grows(s, t)
    ensures NewBreaks(s, u, except)
  {
    forall x, d | (x, d) in u.broken && (x, d) !in s.broken ensures x !in s.modules || x in except {
      if (x, d) !in t.broken {
        assert x in s.modules ==> x in t.modules;
      }
    }
  }

  lemma LeadsLess(a: Scene, b: Scene, except: set<nat>, more: set<nat>)
    requires Leads(a, b, except) && except <= more
    ensures Leads(a, b, more)
  {
  }
}
