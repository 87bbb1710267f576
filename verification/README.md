# Verified models of the editor's harder algorithms

This project models, in Dafny, the parts of the repository whose correctness rests on state kept over many
steps or on algebra over unbounded texts, and proves what those parts are for. It has no dependencies;
`dafny verify dfyconfig.toml` checks all of it.

## The module manager (`src/vs/loader.js`)

Modules arrive in any order. A module that depends on something incomplete is entered in the *inverse list* of
that dependency and counts what it waits for; completing a module releases its list, which may complete further
modules. Cycles are found by a breadth-first search when a dependency is looked at and broken on the spot;
load failures spread backwards through the inverse lists.

* `Graphs` has chains, reachability and rankings.
* `LoaderState` describes the manager's state as a value and states the invariant clause by clause. The most telling
  clauses: `CountedOk` (a module's counter is the number of times it stands in inverse lists plus what its own
  resolve loop has not visited plus what releases still owe it), `NoWaitCycle`, `SettledOk`, `ProgressOk`,
  `BrokenOk` (every dropped dependency lies on a dependency cycle that was reported, and every report is one), `DefsOk`
  (modules are as they were first defined) and `HistoryOk` (what the log of completions, failures and requests looks like).
* `LoaderSteps` and `LoaderCompletion` prove for each kind of step that it keeps every clause.
* `LoaderScripts` has what drives a run from outside; `LoaderScenes` lifts the steps to whole runs.
* `PathSearch` has the two graph searches, `ModuleManagers` the class with the source's methods, `LoaderFacts` the
  lemmas that these methods use.
* `LoaderTheorems` draws the conclusions from the invariant, `LoaderRuns` those for whole runs.

Foreign code (script loader, plugins, factories) is a call during which any finite sequence of events may happen,
each of which may again call foreign code: definitions, successful loads, failed loads, nested to any depth. It may also
throw. A `Script` lists what happens, call by call; after its end, foreign code does nothing by itself. Every method is
shown to terminate for every script. What the specification keeps account of is in one ghost field, `track`: the log,
the definitions, the sets of modules begun, ended and failed, the dropped dependencies, the stack of activities, and the
events in the order in which they occurred.

**Exceptions.** With `catchError` off, which is the default (300-301), a factory that throws unwinds through the manager
into the foreign code that caused the completion, which may catch the exception or not. The activities that are cut short
on the way are moved to a second stack, `dead`, and never go on: a factory that was left keeps its module complete but
never lets go of those who wait for it, and a resolve loop or a release that was left never pays what it still owes.
`ThrownFactory` is a small run in which it happens: 4 is complete, and 3, which depends on it, is not and never will be.
What passes through the manager has its reasons, which is part of the invariant: without a throwing call in the script
and without a second anonymous definition that nothing catches (`IsDisturbed`) nothing is cut short; without these and
load errors no module fails; and if all foreign calls catch what their events throw, no event is dropped. No exception
gets lost: while one is on its way (`flying`), one activity after the other is cut short, and nothing else happens until
foreign code catches it or it becomes the error of a module.

Results worth knowing beside the table:

* Modules that wait never wait in a circle. At rest, a module that has not failed is incomplete if and only if it is
  *stuck*: it waits, directly or through others, for an undefined id, for a module whose factory was left by an exception,
  for a module to which an abandoned loop owes something, or for a failed module about whose failure the waiting one was
  not told.
* The last case comes about in one way only. When a resolve loop meets a dependency that failed earlier, the module itself
  is told (1736-1740), but nobody who waits for it. The pairs of modules that are `missed` in this way are exactly those
  between failed modules and untold waiting ones; `OverlookedFailure` is a small run that ends with such a pair.
* A module that has come to an end is what it was defined with: nothing, a value, or what this very call of its factory
  has made, be it a value, nothing, or a caught exception; whether the exports object counts is decided by the declared
  dependencies. An anonymous definition is used up by the next script that loads, and no two scripts share one.
* What happens in a run is exactly what was asked for: the events that occurred, those that an exception kept from
  occurring, and those still left in the script make up the given ones. Definitions are the first ones that occurred.
* The cycle flag is exact: once every module has been completed, it is up if and only if the declared graph has a cycle.
* "Completed" means that the factory was run or entered: `complete` marks a module before it runs the factory
  (1186), and an error that is caught still releases the modules that wait (1202-1209). The theorem on final
  exports therefore asks for factories that do not call back; runs in which factories make no events happen are of this kind.

## Module ids (`src/vs/loader.js`, `_normalizeModuleId`)

The repeated text replacements are proved equal to a one-pass normaliser with a stack of segments, which is idempotent;
either pattern may be replaced at any place without changing that normal form.

## CSS paths (`src/vs/css.build.ts`)

`CssPaths` has the path functions and the source's loops. `CssLaws` says of the texts where a joined path leads: protocol
and host stay, a leading slash starts at the root, and each `./`, `../` and named folder does what it should. `CssRoundTrip`
and `CssRewriting` have the theorem, for all files and URLs without exception: a rewritten URL leads from the new file
to where the original led from the original file **if and only if** that path is `Expressible` in the new file.

* A relative path is expressible if the file is `Returnable`: below the folders that file and path have in common it has no
  nameless folder (`//`), and no `.` or `..` folder unless the common folders end in a doubled slash; and a file that lies
  directly in the common folder is not sent to a text that begins with a slash, which would start anew at the root.
  `DotsLoseTheWay` shows a small failure: from `a/../b.css` the way to `c` is `../../c`, which leads two folders up.
* An absolute path is expressible if it is normal and the new file is not behind a protocol or a host; one with a protocol
  of its own also needs a new file whose folder stands for no folder at all, because `joinPaths` looks for a protocol in its
  first argument only.

## The tracer (`src/run.py`, `src/core.py`)

`Tracer` keeps loop markers in per-line traces: for every line and at every moment the markers that are still open in
its trace are exactly the active loops whose body contains the line, in order, each with the ids of the loops
around it. After any events each trace is exactly what the events add to it, one after the other. `TracerLaws` says of the
indented lines alone when a loop goes on and when it ends, and of the events alone how often it is counted. `NextStep` is the
pass that replaces each snapshot by the next one of its frame; it keeps all markers in order. It raises a type error
exactly if some frame goes on after it has returned, as generators do: the key of a return is then used as an index
(443). `SourcePrep` has the no-op filling and the loop that takes no-ops back until an arbitrary parser accepts the
source; it takes back all of them up to a line that was rejected, and none behind it.

## Smaller state machines

* `Keyring`: chunked storage. A text comes back if and only if its last chunk does not make reading go on, or what an
  earlier, longer text left behind happens to read as just the lost piece. In particular, a text whose length is an exact
  multiple of the step size is lost on a fresh keyring: `read` yields nothing (its last chunk carries the marker), and
  `clear` then fails on the missing entry after deleting those before it.
* `ImgSampler`: which frames are kept, and that their number is logarithmic, with both bounds.
* `ServerBridge`: no byte lost, doubled or out of order in any interleaving of writers, readiness and partial writes, at
  every point where the pump waits; and with a pipe that takes a byte whenever it is asked, everything accepted is written
  after as many rounds as there is work.
* `RecentServers`: the bounded list always is the beginning of the full list of distinct servers by last use, although
  forgotten servers can come back.

Line numbers in this text and in the table refer to the files of the repository.

## Model

| member | source | states |
|---|---|---|
| `PathSearch.HasDependencyPath` | src/vs/loader.js:1559-1595 | returns true exactly if a non-empty chain of dependency entries leads from one id to the other through defined modules whose dependency list is not null; terminates on every graph |
| `PathSearch.FindCyclePath` | src/vs/loader.js:1602-1622 | a path that is returned runs along real dependency entries back to its start and begins at the goal or was cut off at the depth limit; one is returned whenever the goal can be reached |
| `PathSearch.DescribeCycle` | src/vs/loader.js:1747-1750 | when a dependency path exists, the printed ids start and end with the dependency and follow real entries; they reach the module or are 51 long before the closing id |
| `PathSearch.UncutReportIsCycle` | src/vs/loader.js:1744-1753 | a report that was not cut off is a closed walk of dependencies |
| `ModuleManagers.ModuleManager.constructor` | src/vs/loader.js:1282-1302 | a fresh manager satisfies the invariant |
| `ModuleManagers.ModuleManager.DefineModule` | src/vs/loader.js:1402-1422 | a new module is defined with exactly its dependencies and callback and resolved at once, and is complete if it has no dependencies; a second definition of an id changes nothing; as long as nothing in the script is used a new module fails exactly if one of its dependencies has failed before |
| `ModuleManagers.ModuleManager.Store` | src/vs/loader.js:1142-1154 | a new module is incomplete, owes as many dependencies as it lists (duplicates counted), and keeps the invariant |
| `ModuleManagers.ModuleManager.Resolve` | src/vs/loader.js:1716-1780 | the dependencies are dealt with in order until one has failed or thrown; unless it throws, the module ends up failed, complete, or waiting; counter conservation survives synchronous loads and exceptions in between |
| `ModuleManagers.ModuleManager.ResolveOne` | src/vs/loader.js:1721-1775 | the exact case of a dependency: built in or complete (counted down, nothing else changes), failed before (the module is told of just that error, nobody else), leading back (reported, dropped), or waited for and on its way; a cycle is broken exactly when a dependency path leads back |
| `ModuleManagers.ModuleManager.Wait` | src/vs/loader.js:1756-1757 | the module's id is appended to the dependency's inverse list only, which keeps the wait relation acyclic because no dependency path leads back |
| `ModuleManagers.ModuleManager.BreakCycle` | src/vs/loader.js:1744-1754 | the flag goes up, exactly this edge is dropped, the counter goes down by one, and the report is a genuine one |
| `ModuleManagers.ModuleManager.Fail` | src/vs/loader.js:1736-1740 | the module is told, and exactly the untold modules that wait for it are overlooked |
| `ModuleManagers.ModuleManager.EndResolve` | src/vs/loader.js:1777-1779 | after the loop the module is completed if it waits for nothing; an exception leaves the loop unfinished for good |
| `ModuleManagers.ModuleManager.Fetch` | src/vs/loader.js:1758-1774 | the dependency, or first the plugin that it needs, is defined or on its way, and so is everything else that is waited for |
| `ModuleManagers.ModuleManager.LoadModule` | src/vs/loader.js:1647-1690 | a known or defined id is not requested again and nothing changes; any other id is requested |
| `ModuleManagers.ModuleManager.LoadPluginDependency` | src/vs/loader.js:1697-1712 | a resource is handed to its plugin at most once |
| `ModuleManagers.ModuleManager.OnLoad` | src/vs/loader.js:1496-1503 | a pending anonymous definition is given the id of the script that has loaded; without one nothing changes |
| `ModuleManagers.ModuleManager.OnDependencyError` | src/vs/loader.js:1218-1226 | the module is complete with the error, and the answer tells whether it has an errorback |
| `ModuleManagers.ModuleManager.OnLoadError` | src/vs/loader.js:1518-1552 | exactly the failed id and whoever waits for it, directly or not, are told, each once, everything else in the module table stays; the global handler is called exactly if none of them has an errorback |
| `ModuleManagers.ModuleManager.TellAll` | src/vs/loader.js:1528-1548 | the breadth-first walk visits exactly the ids reachable through inverse lists, nobody twice, and terminates |
| `ModuleManagers.ModuleManager.CollectArguments` | src/vs/loader.js:1788-1817 | one argument for each dependency, in order and of the right kind |
| `ModuleManagers.ModuleManager.Complete` | src/vs/loader.js:1185-1217 | exports and error for a literal, a missing and a function callback, as each outcome demands, even after the factory has called back into the manager; lists and callbacks are cleared; `EndedIsAsDefined` says what is stored in the end |
| `ModuleManagers.ModuleManager.InvokeFactory` | src/vs/loader.js:1170-1201 | a throw is an error of the module with `catchError` on and leaves the manager with it off; a factory that is not to be invoked yields null; exports that were passed in and filled are kept |
| `ModuleManagers.ModuleManager.Deliver` | src/vs/loader.js:1821-1824 | the module is complete, and its waiting list fetched; an exception leaves it complete with the list untouched |
| `ModuleManagers.ModuleManager.Bury` | src/vs/loader.js:1177-1183 | an exception leaves the topmost activity unfinished; counters, lists and order stay accounted for |
| `ModuleManagers.ModuleManager.OnModuleComplete` | src/vs/loader.js:1781-1847 | the recursive cascade terminates, leaves the module complete even if an exception cuts it short, hands the exception on, and does nothing to a complete module; what completed modules hold is in the invariant |
| `ModuleManagers.ModuleManager.ReleaseAll` | src/vs/loader.js:1825-1836 | every waiting module of the fetched list is released once, in order, although completions nest, up to an exception |
| `ModuleManagers.ModuleManager.Happen` | src/vs/loader.js:1382-1552 | any sequence of definitions and load results keeps the invariant; each event occurs once, in order with what it causes, unless an exception drops the rest; an exception that escapes has its reason; definitions are in the module table afterwards and failed ids are marked as failed |
| `LoaderSteps.WaitStaysAcyclic` | src/vs/loader.js:1744-1757 | recording a wait after a negative path search cannot close a circle of waiting modules |
| `LoaderSteps.WaitChainIsDependencyChain` | src/vs/loader.js:1744-1757 | a chain of waiting modules is, backwards, a chain of dependencies that the path search can see |
| `LoaderSteps.WaitKeeps` | src/vs/loader.js:1756-1757 | recording a wait keeps counters, lists, order and acyclicity |
| `LoaderSteps.SettleKeeps` | src/vs/loader.js:1723-1754 | counting a dependency down, because it is built in, complete, or dropped from a cycle, keeps the invariant |
| `LoaderCompletion.ReleaseKeeps` | src/vs/loader.js:1829-1832 | taking one module off a fetched list and counting it down keeps the invariant, but for that module's own completion |
| `LoaderCompletion.FinishKeeps` | src/vs/loader.js:1821-1824 | fetching and clearing an inverse list moves its entries into what is owed, so that the counters stay right |
| `LoaderCompletion.AllSettledWhenPaid` | src/vs/loader.js:1777-1779 | a counter at zero means that every dependency has begun or was dropped from a cycle |
| `LoaderCompletion.BuryKeeps` | src/vs/loader.js:1177-1183 | cutting an activity short keeps every clause of the invariant |
| `LoaderScripts.FirstDefinitionStays` | src/vs/loader.js:1408-1414 | what an id was first defined with never changes, whatever events follow |
| `LoaderScripts.DefinitionHasSource` | src/vs/loader.js:1402-1523 | every definition comes from a definition by name, from the first anonymous one since a script was last loaded, or from a failure to load |
| `LoaderScripts.PendingIsGiven` | src/vs/loader.js:1169-1184 | what a script makes happen are all events of its loads, and those of its factories except the ones that are not invoked |
| `LoaderScripts.PendingIsFirst` | src/vs/loader.js:1382-1400 | the anonymous definition in waiting is the first one since a script was last loaded, and there is none exactly if all have been followed by a load |
| `LoaderScripts.LoadUsesUp` | src/vs/loader.js:1496-1503 | a script that has loaded leaves no anonymous definition in waiting; without one since the last load it defines nothing |
| `LoaderScripts.LoadNamesFirst` | src/vs/loader.js:1496-1503 | a script that has loaded gets the first anonymous definition since the last load, unless its id is defined |
| `LoaderScripts.NamedOnce` | src/vs/loader.js:1496-1503 | no two scripts get the same anonymous definition |
| `LoaderTheorems.NoModuleIsStuck` | src/vs/loader.js:1716-1847 | at rest a module that has not failed is incomplete exactly if it is stuck: behind an undefined id, a factory or a loop left by an exception, or a failure that was not passed on |
| `LoaderRuns.CalmRunsDoNotFail` | src/vs/loader.js:1157-1209 | if no load error is given, no foreign call throws, and at most one definition is anonymous or all calls catch, then no module fails and nothing is cut short |
| `LoaderRuns.AllCompleteWhenAllDefined` | src/vs/loader.js:1716-1847 | if moreover no given definition names a plugin, once every requested id is defined every module is complete, cyclic dependencies included |
| `LoaderTheorems.FailureIsPassedOnIfNobodyWaits` | src/vs/loader.js:1736-1740 | after a failure in a resolve loop everyone concerned has been told if and only if nobody untold was waiting, directly or not |
| `LoaderRuns.OverlookedFailure` | src/vs/loader.js:1736-1740 | a concrete run after which a module waits for a failed one, incomplete and untold |
| `LoaderRuns.ThrownFactory` | src/vs/loader.js:1165-1183 | a concrete run whose only factory call throws, with `catchError` off: the module counts as complete, and the one that depends on it waits for ever |
| `LoaderTheorems.NobodyWaitsForItself` | src/vs/loader.js:1744-1757 | in every reachable state the wait relation is acyclic |
| `LoaderTheorems.CounterIsConserved` | src/vs/loader.js:1716-1836 | a module's counter never goes negative, and unless it has failed equals its multiplicity in all inverse lists plus its unvisited dependencies plus its entries in releases, in progress or cut short |
| `LoaderTheorems.CompletedAtMostOnce` | src/vs/loader.js:1781-1787 | in any run a module is completed at most once, and never after it has failed |
| `LoaderTheorems.DependenciesComeFirst` | src/vs/loader.js:1735-1754 | when a module is completed, each dependency was begun earlier, or a dependency path leads back and was reported as a cycle |
| `LoaderTheorems.LogIsTopological` | src/vs/loader.js:1735-1754 | while the cycle flag is down, the log of completions is a topological order of the dependency graph |
| `LoaderTheorems.FactoryGetsFinalExports` | src/vs/loader.js:1788-1821 | with factories that do not call back, each dependency not dropped has been completed before, and its final exports are passed in its place, unless an exception left its factory |
| `LoaderTheorems.EndedIsAsDefined` | src/vs/loader.js:1185-1217 | in any run a module that has ended has the value it was defined with, its own exports object, or what its factory's outcome demands (a returned value, unless the exports object was passed in and filled; null if it is not invoked; the error if a throw was caught), and no callback is left |
| `LoaderTheorems.CaughtIsReported` | src/vs/loader.js:1202-1208 | an exception of a factory that becomes an error, which needs `catchError`, is reported right before the module ends |
| `LoaderTheorems.ExceptionsUnwind` | src/vs/loader.js:1170-1183 | after an activity has been cut short the next thing to happen is that another one is, that foreign code catches the exception, or that it is reported as an error |
| `LoaderTheorems.OnlyNamedIsRequested` | src/vs/loader.js:1758-1774 | only dependencies and the plugins they need are asked for, and a plugin is handed a resource only after it has been completed or has failed |
| `LoaderTheorems.CycleFlagIsExact` | src/vs/loader.js:1745 | with all modules completed, the flag is up if and only if the declared dependency graph has a cycle |
| `LoaderRuns.Run` | src/vs/loader.js:1382-1847 | any run from a fresh manager: what occurred, was dropped and is left over is exactly what was given, and nothing is dropped if every foreign call catches; definitions and the anonymous one in waiting are what occurred; each call uses up its place in the script, and ended modules are what these calls have made; the stuck equivalence, acyclic waiting, at-most-once completion; nothing is cut short and no module fails without a reason in what was given; exceptions unwind without a break; and, for factories that make nothing happen, an uninterrupted log |
| `ModuleIds.NormalizeModuleId` | src/vs/loader.js:1106-1123 | the four replacement stages terminate and yield the normal form of the stack reference |
| `ModuleIds.NormalIsIdempotent` | src/vs/loader.js:1106-1123 | normalising twice is normalising once |
| `ModuleIds.NamedPairGoes` | src/vs/loader.js:1115-1122 | a segment that is neither empty nor `.` nor `..` goes together with the `..` behind it, whatever its length, in the middle and at the beginning |
| `ModuleIds.DotGoes` | src/vs/loader.js:1108-1114 | a `.` that is not the last segment goes, in the middle and at the beginning |
| `ModuleIds.NormalIsNormal` | src/vs/loader.js:1106-1123 | the result has no inner `.` and no `..` behind a named segment, its last segment is that of the id, and exactly the texts of this kind stay as they are |
| `ModuleIds.AnyOrderKeepsNormal` | src/vs/loader.js:1109-1119 | replacing either pattern anywhere keeps the normal form and shortens the text |
| `ModuleIds.FindDot` | src/vs/loader.js:1109-1110 | finds the leftmost `/./` or none exists |
| `ModuleIds.FindPair` | src/vs/loader.js:1116-1117 | finds the leftmost segment followed by `..` that the pattern matches, or none exists |
| `CssPaths.JoinPaths` | src/vs/css.build.ts:189-241 | the piece-by-piece loop computes the specification that `JoinedIsNormal` and the round trip speak of |
| `CssPaths.CommonPrefix` | src/vs/css.build.ts:243-251 | the prefix is common to both and cannot be extended |
| `CssPaths.RelativePath` | src/vs/css.build.ts:262-278 | computes the specification of the round trip: absolute targets as they are, otherwise one step up for each folder below the common ones |
| `CssPaths.CommonPrefixFits` | src/vs/css.build.ts:253-260 | the common folder prefix is a prefix of both paths and ends at a slash |
| `CssLaws.HostIsSkipped` | src/vs/css.build.ts:191-202 | behind `//`, `http://` and `https://` the path begins at the slash that ends the host |
| `CssLaws.HostStays` | src/vs/css.build.ts:191-241 | protocol and host of the folder stay in front; behind them the URL is read from the end of the folder, or from the host's root if it begins with a slash |
| `CssLaws.JoinedIsRead` | src/vs/css.build.ts:203-241 | without protocol and host the URL is read from the end of the folder, or from the root if it begins with a slash |
| `CssLaws.DotGoes` | src/vs/css.build.ts:204-207 | `./` leads nowhere |
| `CssLaws.UpLeavesNamed` | src/vs/css.build.ts:209-224 | `../` leaves the folder before it, if that has a name |
| `CssLaws.RootStops` | src/vs/css.build.ts:209-224 | at the root, and at a doubled slash, `../` leads nowhere |
| `CssLaws.NamedStays` | src/vs/css.build.ts:203-241 | what only goes down into named folders is put behind a normal folder as it is |
| `CssLaws.CommonFolderIsLongest` | src/vs/css.build.ts:253-260 | every folder that both paths begin with lies within the common folder prefix |
| `CssLaws.NoDetour` | src/vs/css.build.ts:262-278 | from a file to a path below its own folder no step up is taken |
| `CssRoundTrip.JoinedIsNormal` | src/vs/css.build.ts:203-240 | behind protocol and host, a path joined to a folder has no `./`, and `../` only in front |
| `CssRoundTrip.NormalPathsAreFixed` | src/vs/css.build.ts:189-241 | a path is left alone exactly if it is normal; normalising twice is normalising once |
| `CssRoundTrip.ReturnsExactly` | src/vs/css.build.ts:203-240 | on piece stacks: entering folders, climbing as many steps and going down again leads back if and only if the folders can be left |
| `CssRoundTrip.RelativeRoundTrip` | src/vs/css.build.ts:189-278 | for every file and every normal relative path: joining the file's folder and the relative path gives the path back if and only if the file is `Returnable` |
| `CssRoundTrip.DotsLoseTheWay` | src/vs/css.build.ts:262-278 | a concrete file and path whose relative path leads elsewhere, and the condition sees it |
| `CssRoundTrip.ProtocolIsAbsolute` | src/vs/css.build.ts:199-202 | behind a protocol or a host every joined path is absolute |
| `CssRewriting.AbsoluteRoundTrip` | src/vs/css.build.ts:189-241 | for every file and every absolute path: the path leads to itself from the file if and only if it is expressible there |
| `CssRewriting.HostedAbsolute` | src/vs/css.build.ts:191-202 | from behind a protocol or a host no absolute path leads to itself |
| `CssRewriting.RewritingKeepsMeaning` | src/vs/css.build.ts:159-164 | for all files and URLs: the rewritten URL leads from the new file where the original led from the original file if and only if that path is expressible in the new file |
| `CssRewriting.RewriteUrl` | src/vs/css.build.ts:159-164 | the replacement that is computed keeps the meaning of the URL under exactly this condition |
| `CssRewriting.NamedIsReturnable` | src/vs/css.build.ts:262-278 | a file in named folders can express every relative path without doubled slashes |
| `Tracer.BodiesAreLaminar` | src/run.py:177-188 | two loop bodies are nested or disjoint |
| `Tracer.MatchedTraceCounts` | src/run.py:164-175 | in a trace whose ends match, begins minus ends is the number of open markers and no prefix has more ends than begins |
| `Tracer.Logger.StmtsInLoop` | src/run.py:177-188 | lists exactly the code lines of the loop's body, in order |
| `Tracer.Logger.Mark` | src/run.py:151-153 | every statement of the body gets the marker at the end of its trace, no other trace changes |
| `Tracer.Logger.RecordLoopBegin` | src/run.py:164-175 | a loop header begins a loop or counts one more iteration; open markers stay equal to the active loops around each line |
| `Tracer.Logger.RecordLoopEnd` | src/run.py:134-162 | which loops end when control reaches a line, with which iteration counts, and with which markers on which lines |
| `Tracer.Logger.CloseAll` | src/run.py:149-154 | a return ends all loops, innermost first, each after one more iteration |
| `Tracer.Logger.RecordEnv` | src/run.py:226-279 | one snapshot with the current loops and time is added to the trace of its line, and the run stops at the limit |
| `Tracer.Logger.UserLine` | src/run.py:128-132 | loops end before the snapshot and begin after it: the new history, the new active loops and every new trace, exactly |
| `Tracer.Logger.UserReturn` | src/run.py:311-323 | the snapshot of a return comes before loops end: the new history, the new active loops and every new trace, exactly |
| `Tracer.HistoryFollowsEvents` | src/run.py:226-279 | after any events there is one snapshot for each, in order, of its frame and at its place, marked if something was thrown or the limit was reached |
| `TracerLaws.GoesOnInBody` | src/run.py:134-162 | at its header and in its body the innermost loop goes on, and no line gets an end marker |
| `TracerLaws.EndsBehindBody` | src/run.py:155-162 | at the first statement behind its body, or at the header of a loop around it, the innermost loop of the frame ends, and no other; each line of the body gets one end marker, counting one more iteration after a break |
| `TracerLaws.ReturnEndsAll` | src/run.py:144-154 | after a return statement of the function whose loop is innermost all loops end |
| `TracerLaws.ReturnMarksAll` | src/run.py:149-154 | they end innermost first, each counted once more, and each line gets the markers of those whose body it is in |
| `TracerLaws.OthersEndNothing` | src/run.py:136 | no event of another frame ends a loop |
| `TracerLaws.IterationsAreVisits` | src/run.py:164-175 | the counter of an active loop is how often its header has been reached since the loop began |
| `TracerLaws.EveryLoopBegan` | src/run.py:164-175 | every active loop has begun with an event at its header, and has been active ever since |
| `TracerLaws.LoopEndCounts` | src/run.py:134-175 | in any run the end marker of a loop counts how often its header was reached since it began, and one more after a break |
| `TracerLaws.SnapshotShowsLoops` | src/run.py:196-234 | a snapshot shows the active loops with their counters: those that its line ends are gone, the one that its line begins is not there yet, and at a return none has ended yet |
| `NextStep.ShiftingKeepsMarkers` | src/run.py:424-453 | the pass keeps the markers of each trace in order, and so what is open at its end |
| `NextStep.ShiftLooksAhead` | src/run.py:439-448 | what is shown at a line happened later in the same frame, with nothing of that frame in between |
| `NextStep.HeaderShowsBody` | src/run.py:439-448 | at a loop header steps into the body are shown and steps behind it are not, unless they have thrown; at other lines the next step of the frame always is |
| `NextStep.FindNext` | src/run.py:439-448 | finds the first later snapshot of the same frame |
| `NextStep.AdjustToNextTimeStep` | src/run.py:424-453 | every trace is shifted; it fails exactly if a frame was resumed after it had returned |
| `NextStep.TripOverResumedFrame` | src/run.py:409-453 | a frame that reaches a line, returns and goes on makes the whole computation fail |
| `NextStep.ComputeRuntimeData` | src/run.py:409-421 | for any events up to the limit: loops, history and all traces are what the events make of them, the result is every trace shifted, and begins minus ends in each line's trace is the number of active loops around the line |
| `SourcePrep.ReplaceEmptyLinesWithNoop` | src/core.py:62-93 | every line after both passes, as a function of the source alone; the line count stays |
| `SourcePrep.NoopIndent` | src/core.py:62-90 | a no-op is indented as far as the next line of code, or, if that is wider, four more than the last line of code where that opens a block, and as far as the blank line itself where it does not |
| `SourcePrep.FillingFollowsBlock` | src/core.py:62-78 | blank lines are filled in behind a line that opens a block, up to the next line of code, and nowhere else |
| `SourcePrep.CodeStays` | src/core.py:62-93 | the first line and all lines of code stay as they are |
| `SourcePrep.OnlyNewlinesGo` | src/core.py:79-90 | only newlines at the end are taken off a blank line |
| `SourcePrep.TakeBack` | src/run.py:386-395 | exactly the lines with the magic name up to the rejected line become empty, and the answer tells whether there were any |
| `SourcePrep.ComputeWrites` | src/run.py:376-398 | for any parser the loop terminates; exactly the lines with the magic name up to some line are blanked, that line being the first or one at which the parser rejected an earlier text; it succeeds exactly if the parser accepts what is left, and gives up only where no no-op up to the rejected line is left |
| `SourcePrep.FewerNoops` | src/run.py:386-395 | each round that changes something leaves fewer lines with the magic name |
| `SourcePrep.CodeSurvives` | src/run.py:376-398 | through preparation and repair, code without the magic name stays in its place, and blank lines end up blank or as no-ops |
| `Keyring.KeyringStorage.Read` | cli/src/auth.rs:208-228 | yields the assembled text, or nothing at a missing entry, or an error exactly at a refused one, and creates a handle for each entry looked at |
| `Keyring.KeyringStorage.Store` | cli/src/auth.rs:230-252 | the first entries hold the chunks and later ones are untouched; it fails exactly at the first refused chunk, with those before it written |
| `Keyring.KeyringStorage.Clear` | cli/src/auth.rs:254-264 | deletes every entry that has a handle, or those before the first missing or refused one, and then fails and keeps its handles |
| `Keyring.ReadChunks` | cli/src/auth.rs:208-252 | reading the chunks of a text yields the text, or runs on into what is stored behind |
| `Keyring.StoreThenRead` | cli/src/auth.rs:208-252 | from any earlier contents a stored text comes back if and only if its last chunk does not read on, or the old entries behind read as just the lost piece |
| `Keyring.StoreThenReadFresh` | cli/src/auth.rs:208-252 | with nothing stored behind, it comes back if and only if its length is no multiple of the step size and the last chunk does not end in the marker; otherwise reading yields nothing |
| `Keyring.ExactMultipleIsLost` | cli/src/auth.rs:180-243 | with the limit of Windows, any text of 1018 characters is stored as one entry of 1024 that ends in the marker, from which nothing can be read |
| `Keyring.ChunksFit` | cli/src/auth.rs:180-185 | no stored entry exceeds the limit, and none is empty |
| `Keyring.LookingPastTheEnd` | cli/src/auth.rs:254-264 | reading yields nothing exactly when it has looked at a missing entry, so that clearing finds all entries exactly when there is a text |
| `ImgSampler.ImgRecorder.RecordImg` | src/img-summary.py:23-37 | keeps the frame exactly if it is one of those to be kept, and fails exactly if such a frame is no image; keeps the sampling invariant |
| `ImgSampler.DueIsNext` | src/img-summary.py:23-37 | between the last kept frame and the due one no frame is to be kept |
| `ImgSampler.NextFrame` | src/img-summary.py:27-37 | within a stage the modulus test keeps exactly the frame that is due |
| `ImgSampler.OnlyMultiple` | src/img-summary.py:27 | between two multiples of the interval the modulus test finds only the upper one |
| `ImgSampler.NextStage` | src/img-summary.py:24-26 | a full stage is the start of the one with twice the interval |
| `ImgSampler.KeptIsLogarithmic` | src/img-summary.py:23-37 | after n frames three for each doubling are kept, at most three times the logarithm of n and at least that less two stages |
| `ImgSampler.StageFrames` | src/img-summary.py:23-37 | from the third stage on, the third, fourth and fifth multiples of the interval are kept, in order |
| `ImgSampler.FirstFrames` | src/img-summary.py:23-37 | of the first 21 frames, those numbered 0, 1, 2, 4, 6, 8, 12, 16 and 20 are kept |
| `ImgSampler.RecordAll` | src/img-summary.py:13-37 | for any sequence of frames, images or not: fails exactly if a frame to be kept is no image; the kept ones are exactly those to be kept, and both bounds hold |
| `ServerBridge.Bridge.Write` | cli/src/tunnels/server_bridge_windows.rs:124-127 | a message is accepted whole or not at all, and goes behind what is queued |
| `ServerBridge.Bridge.Continue` | cli/src/tunnels/server_bridge_windows.rs:67-118 | the pump goes on from wherever it waits to the next such point, as the transition function says |
| `ServerBridge.Bridge.HandleReady` | cli/src/tunnels/server_bridge_windows.rs:83-104 | readiness, reading, and when the pump stops |
| `ServerBridge.Bridge.WriteSome` | cli/src/tunnels/server_bridge_windows.rs:106-117 | a partial write splits the pending message; a blocked one leaves it, a failed one stops the pump |
| `ServerBridge.WriteConserves` | cli/src/tunnels/server_bridge_windows.rs:108-110 | a partial write loses and doubles nothing |
| `ServerBridge.StepConserves` | cli/src/tunnels/server_bridge_windows.rs:67-127 | every event keeps written, pending and queued bytes equal to the accepted ones, and takes nothing back |
| `ServerBridge.RunConserves` | cli/src/tunnels/server_bridge_windows.rs:51-127 | so does every interleaving of events; what was written always is a prefix of what was accepted |
| `ServerBridge.StopsExactly` | cli/src/tunnels/server_bridge_windows.rs:67-118 | the pump stops exactly at the end of what can be read, at an error of the pipe, when nobody takes what was read, and when the writers have hung up and nothing is queued; and it stays stopped |
| `ServerBridge.ReadIsPassedOn` | cli/src/tunnels/server_bridge_windows.rs:88-97 | what has been read is passed on, all of it, before anything else is read |
| `ServerBridge.HelpfulRoundsDrain` | cli/src/tunnels/server_bridge_windows.rs:106-117 | as long as the pipe takes a byte whenever it is asked, each round leaves less to write, and the pump does not stop |
| `ServerBridge.HelpfulRunDrains` | cli/src/tunnels/server_bridge_windows.rs:67-118 | after as many such rounds as there is work, or more, everything accepted has been written |
| `ServerBridge.DrainedIsWritten` | cli/src/tunnels/server_bridge_windows.rs:106-117 | when nothing is left to write, everything accepted has been written |
| `ServerBridge.Run` | cli/src/tunnels/server_bridge_windows.rs:51-127 | the bridge ends up in the state to which the events lead, with all accepted bytes in place |
| `RecentServers.RecentIsDistinct` | cli/src/tunnels/paths.rs:137-145 | the full list holds exactly the servers ever used, each once |
| `RecentServers.RecentIsOrdered` | cli/src/tunnels/paths.rs:137-145 | it is ordered by last use, latest first |
| `RecentServers.LastUseIsLast` | cli/src/tunnels/paths.rs:137-145 | the last use is a use, and there is none after it |
| `RecentServers.PrefixWithout` | cli/src/tunnels/paths.rs:137-145 | removing a server from a bounded list gives the beginning of removing it from the full list |
| `RecentServers.LastUsedServers.Add` | cli/src/tunnels/paths.rs:137-145 | the server moves or comes to the front, nothing else changes place, and the number of servers is returned |
| `RecentServers.LastUsedServers.Trim` | cli/src/tunnels/paths.rs:148-163 | the oldest servers beyond the bound are deleted from the end; a directory that cannot be deleted leaves the list as it was |
| `RecentServers.LastUsedServers.Setup` | cli/src/tunnels/code_server.rs:473-492 | after a successful update the list is the first five of the full list by last use |
| `RecentServers.UseAll` | cli/src/tunnels/code_server.rs:473-492 | the same after any sequence of uses, although evicted servers are forgotten |

## Left out

- Module names: ids are numbers; `ModuleIdProvider` and the splitting of `plugin!resource` are not modelled. The ids of the names `exports`, `module` and `require` are 0, 1 and 2, as in the source.
- Module objects are records in the module table, so that updates through a second reference to the same object are updates of the table.
- Errorbacks and the global error handler are opaque: they neither call back into the manager nor throw. A plugin's `load.error` is not modelled.
- InvokeFactory: which ids are not to be invoked is part of the script (a factory's outcome), not of a configuration; whether exports are empty is, too.
- Script paths and their fallbacks, build information, recorder events, configuration, `synchronousRequire` (it only reads).
- AllCompleteWhenAllDefined: plugin dependencies are excluded, because the path search does not follow plugin ids and a plugin may wait for its own resource; NoModuleIsStuck covers them, with the resource as what is waited for.
- FactoryGetsFinalExports: factories that call back are excluded, because a module counts as complete while its factory runs and its exports may still change.
- CycleFlagIsExact: asks that no module is defined under one of the three built-in names.
- The scanning for `url(...)` in style sheets, and inlining of resources.
- Tracer: lines are given with their indent and kind, so the pattern matching on the text of a line is not modelled; frames are ids with a name; variables, their values and plots are left out, and frames that the source ignores do not occur.
- AdjustToNextTimeStep: the order in which the dictionary is traversed is arbitrary.
- White space in `SourcePrep` is space, tab, newline and carriage return; the strings are otherwise unrestricted.
- ComputeWrites: the table of writes that a successful parse yields is not modelled, only the repaired lines.
- The encryption and serialisation of credentials: the sealed text is arbitrary; the limit of an entry is a parameter, because it differs between systems. Cutting inside a character of several bytes does not occur, as a sealed text is ASCII.
- Conversion of images in the sampler; the kept frames are shown by their places.
- ServerBridge: the runtime itself is not modelled: a writer that finds the queue full tries again, and a pump for which nothing is ready stays where it is. Read data is not limited to the size of the buffer.
- RecentServers: the file format and the paths of the servers; a list whose saving fails keeps its new value in memory only.
