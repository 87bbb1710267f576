/** The projection-box tracer (src/run.py): loop markers in per-line traces, and the pass that looks one step ahead. */
module Tracer {
  import opened Basics

  /** What the tracer reads off a source line; a blank line's indent is its length. */
  datatype Line = Blank(indent: nat) | Code(indent: nat, isLoop: bool, isReturn: bool, isBreak: bool)

  datatype Frame = Frame(id: nat, name: string)

  /** A trace belongs to a line or to the return from a line. */
  datatype Key = At(line: nat) | ReturnAt(line: nat)

  datatype Entry =
    | BeginLoop(iters: seq<nat>, ids: seq<nat>)
    | EndLoop(iters: seq<nat>, ids: seq<nat>)
    | Snapshot(time: nat, frame: Frame, key: Key, iters: seq<nat>, ids: seq<nat>, thrown: bool)

  datatype LoopInfo = LoopInfo(frame: Frame, lineno: nat, indent: nat, iter: nat)

  type Traces = map<Key, seq<Entry>>

  const RUNPY_LIMIT: nat := 2048

  function At'(data: Traces, k: Key): seq<Entry> {
    if k in data then data[k] else []
  }

  // ---------- loop bodies ----------

  /** l is a statement of the loop at line n: code, and all code from n on is indented deeper than n. */
  ghost predicate InBody(lines: seq<Line>, n: nat, l: nat) {
    && n < l < |lines| && lines[l].Code?
    && forall m :: n < m <= l && lines[m].Code? ==> lines[m].indent > lines[n].indent
  }

  /** Two loop bodies are nested or have nothing in common. */
  lemma BodiesAreLaminar(lines: seq<Line>, a: nat, b: nat)
    requires a < b < |lines| && lines[a].Code? && lines[b].Code?
    ensures (forall l :: InBody(lines, b, l) ==> InBody(lines, a, l))
      || (forall l :: !(InBody(lines, a, l) && InBody(lines, b, l)))
    ensures InBody(lines, a, b) ==> forall l :: InBody(lines, b, l) ==> InBody(lines, a, l)
  {
    if InBody(lines, a, b) {
      forall l: nat | InBody(lines, b, l) ensures InBody(lines, a, l) {
        forall m | a < m <= l && lines[m].Code? ensures lines[m].indent > lines[a].indent {
        }
      }
    } else {
      var m :| a < m <= b && lines[m].Code? && lines[m].indent <= lines[a].indent;
      assert forall l :: InBody(lines, b, l) ==> m <= l;
    }
  }

  // ---------- markers as brackets ----------

  /** The markers that are still open at the end of a trace, innermost last; None if an end does not match. */
  function Open(trace: seq<Entry>): Option<seq<seq<nat>>> {
    if |trace| == 0 then Some([])
    else
      var before := Open(trace[..|trace| - 1]);
      var last := trace[|trace| - 1];
      if before.None? || last.Snapshot? then before
      else if last.BeginLoop? then Some(before.value + [last.ids])
      else if |before.value| > 0 && before.value[|before.value| - 1] == last.ids then
        Some(before.value[..|before.value| - 1])
      else None
  }

  function Ids(loops: seq<LoopInfo>): (ids: seq<nat>)
    ensures |ids| == |loops|
  {
    seq(|loops|, i requires 0 <= i < |loops| => loops[i].lineno)
  }

  function Iters(loops: seq<LoopInfo>): seq<nat> {
    seq(|loops|, i requires 0 <= i < |loops| => loops[i].iter)
  }

  /** The active loops whose body contains line l, each shown by the ids of all loops around it. */
  ghost function Around(lines: seq<Line>, loops: seq<LoopInfo>, l: nat): seq<seq<nat>> {
    if |loops| == 0 then []
    else
      var n := |loops| - 1;
      Around(lines, loops[..n], l) + if InBody(lines, loops[n].lineno, l) then [Ids(loops)] else []
  }

  lemma OpenAppend(trace: seq<Entry>, e: Entry)
    requires Open(trace).Some?
    ensures e.Snapshot? ==> Open(trace + [e]) == Open(trace)
    ensures e.BeginLoop? ==> Open(trace + [e]) == Some(Open(trace).value + [e.ids])
    ensures forall outer :: e.EndLoop? && Open(trace) == Some(outer + [e.ids]) ==> Open(trace + [e]) == Some(outer)
  {
    assert (trace + [e])[..|trace|] == trace;
    forall outer | e.EndLoop? && Open(trace) == Some(outer + [e.ids]) ensures Open(trace + [e]) == Some(outer) {
      assert (outer + [e.ids])[..|outer|] == outer;
    }
  }

  /** Counting loops once more does not change which are open. */
  lemma {:induction false} AroundIgnoresIter(lines: seq<Line>, loops: seq<LoopInfo>, others: seq<LoopInfo>, l: nat)
    requires |loops| == |others| && forall i :: 0 <= i < |loops| ==> loops[i].lineno == others[i].lineno
    ensures Around(lines, loops, l) == Around(lines, others, l) && Ids(loops) == Ids(others)
  {
    assert Ids(loops) == Ids(others);
    if |loops| == 0 {
    } else {
      AroundIgnoresIter(lines, loops[..|loops| - 1], others[..|others| - 1], l);
    }
  }

  function Begins(trace: seq<Entry>): nat {
    if |trace| == 0 then 0 else Begins(trace[..|trace| - 1]) + if trace[|trace| - 1].BeginLoop? then 1 else 0
  }

  function Ends(trace: seq<Entry>): nat {
    if |trace| == 0 then 0 else Ends(trace[..|trace| - 1]) + if trace[|trace| - 1].EndLoop? then 1 else 0
  }

  /** In a trace whose ends all match, begins minus ends are open, and no prefix has more ends than begins. */
  lemma {:induction false} MatchedTraceCounts(trace: seq<Entry>)
    requires Open(trace).Some?
    ensures Begins(trace) - Ends(trace) == |Open(trace).value|
    ensures forall n :: 0 <= n <= |trace| ==> Ends(trace[..n]) <= Begins(trace[..n])
  {
    if |trace| == 0 {
    } else {
      var shorter := trace[..|trace| - 1];
      MatchedTraceCounts(shorter);
      forall n | 0 <= n <= |trace| ensures Ends(trace[..n]) <= Begins(trace[..n]) {
        if n < |trace| {
          assert trace[..n] == shorter[..n];
        } else {
          assert trace[..n] == trace;
        }
      }
    }
  }

  // ---------- the invariant of the tracer ----------

  ghost predicate LoopsOk(lines: seq<Line>, loops: seq<LoopInfo>) {
    forall i :: 0 <= i < |loops| ==>
      loops[i].lineno < |lines| && lines[loops[i].lineno].Code? && loops[i].indent == lines[loops[i].lineno].indent
  }

  /** In every line's trace the open markers are exactly the active loops around the line, in order. */
  ghost predicate MarkersOk(lines: seq<Line>, data: Traces, loops: seq<LoopInfo>) {
    && (forall l: nat :: Open(At'(data, At(l))) == Some(Around(lines, loops, l)))
    && (forall l: nat, i :: 0 <= i < |At'(data, ReturnAt(l))| ==> At'(data, ReturnAt(l))[i].Snapshot?)
  }

  /** The snapshots in the traces are those of the history, one for each time. */
  ghost predicate TimesOk(data: Traces, history: seq<Entry>) {
    && (forall k, i :: 0 <= i < |At'(data, k)| && At'(data, k)[i].Snapshot? ==>
         At'(data, k)[i].time < |history| && history[At'(data, k)[i].time] == At'(data, k)[i])
    && (forall t :: 0 <= t < |history| ==>
         history[t].Snapshot? && history[t].time == t && history[t] in At'(data, history[t].key))
  }

  /** The same entries plus one for each of the given keys. */
  ghost predicate Extended(before: Traces, after: Traces, keys: set<Key>, e: Entry) {
    forall k :: At'(after, k) == At'(before, k) + if k in keys then [e] else []
  }

  ghost function BodyKeys(lines: seq<Line>, n: nat): set<Key> {
    set l: nat | l < |lines| && InBody(lines, n, l) :: At(l)
  }

  lemma BeginKeepsMarkers(lines: seq<Line>, data: Traces, after: Traces, loops: seq<LoopInfo>, loop: LoopInfo)
    requires MarkersOk(lines, data, loops)
    requires Extended(data, after, BodyKeys(lines, loop.lineno), BeginLoop(Iters(loops + [loop]), Ids(loops + [loop])))
    ensures MarkersOk(lines, after, loops + [loop])
  {
    var more := loops + [loop];
    var e := BeginLoop(Iters(more), Ids(more));
    assert more[..|more| - 1] == loops;
    forall l: nat ensures Open(At'(after, At(l))) == Some(Around(lines, more, l)) {
      OpenAppend(At'(data, At(l)), e);
      assert At'(data, At(l)) + [] == At'(data, At(l));
      assert Around(lines, loops, l) + [] == Around(lines, loops, l);
      assert At(l) in BodyKeys(lines, loop.lineno) <==> InBody(lines, loop.lineno, l);
    }
  }

  lemma EndKeepsMarkers(lines: seq<Line>, data: Traces, after: Traces, loops: seq<LoopInfo>)
    requires MarkersOk(lines, data, loops) && |loops| > 0
    requires Extended(data, after, BodyKeys(lines, loops[|loops| - 1].lineno), EndLoop(Iters(loops), Ids(loops)))
    ensures MarkersOk(lines, after, loops[..|loops| - 1])
  {
    var n := |loops| - 1;
    var e := EndLoop(Iters(loops), Ids(loops));
    forall l: nat ensures Open(At'(after, At(l))) == Some(Around(lines, loops[..n], l)) {
      OpenAppend(At'(data, At(l)), e);
      assert At'(data, At(l)) + [] == At'(data, At(l));
      assert Around(lines, loops[..n], l) + [] == Around(lines, loops[..n], l);
      assert At(l) in BodyKeys(lines, loops[n].lineno) <==> InBody(lines, loops[n].lineno, l);
    }
  }

  lemma BumpKeepsMarkers(lines: seq<Line>, data: Traces, loops: seq<LoopInfo>, others: seq<LoopInfo>)
    requires MarkersOk(lines, data, loops)
    requires |loops| == |others| && forall i :: 0 <= i < |loops| ==> loops[i].lineno == others[i].lineno
    ensures MarkersOk(lines, data, others)
  {
    forall l: nat ensures Around(lines, others, l) == Around(lines, loops, l) {
      AroundIgnoresIter(lines, loops, others, l);
    }
  }

  lemma SnapshotKeepsMarkers(lines: seq<Line>, data: Traces, after: Traces, loops: seq<LoopInfo>, e: Entry, k: Key)
    requires MarkersOk(lines, data, loops) && e.Snapshot? && Extended(data, after, {k}, e)
    ensures MarkersOk(lines, after, loops)
  {
    forall l: nat ensures Open(At'(after, At(l))) == Open(At'(data, At(l))) {
      OpenAppend(At'(data, At(l)), e);
      assert At'(data, At(l)) + [] == At'(data, At(l));
    }
  }

  lemma MarkerKeepsTimes(data: Traces, after: Traces, history: seq<Entry>, keys: set<Key>, e: Entry)
    requires TimesOk(data, history) && !e.Snapshot? && Extended(data, after, keys, e)
    ensures TimesOk(after, history)
  {
  }

  lemma SnapshotKeepsTimes(data: Traces, after: Traces, history: seq<Entry>, e: Entry)
    requires TimesOk(data, history) && e.Snapshot? && e.time == |history| && Extended(data, after, {e.key}, e)
    ensures TimesOk(after, history + [e])
  {
    var longer := history + [e];
    forall k, i | 0 <= i < |At'(after, k)| && At'(after, k)[i].Snapshot?
      ensures At'(after, k)[i].time < |longer| && longer[At'(after, k)[i].time] == At'(after, k)[i]
    {
      if i < |At'(data, k)| {
        assert At'(after, k)[i] == At'(data, k)[i];
      }
    }
    forall t | 0 <= t < |longer|
      ensures longer[t].Snapshot? && longer[t].time == t && longer[t] in At'(after, longer[t].key)
    {
      if t < |history| {
        assert history[t] in At'(data, history[t].key);
      }
    }
  }

  /** One more iteration of the innermost loop. */
  function Counted(loops: seq<LoopInfo>): (more: seq<LoopInfo>)
    requires |loops| > 0
    ensures |more| == |loops| && Ids(more) == Ids(loops)
    ensures forall i :: 0 <= i < |loops| ==> more[i].lineno == loops[i].lineno && more[i].indent == loops[i].indent
  {
    var n := |loops| - 1;
    var more := loops[n := loops[n].(iter := loops[n].iter + 1)];
    assert Ids(more) == Ids(loops);
    more
  }

  /** The end markers that line l gets when all loops end, innermost first, each after one more iteration. */
  ghost function ClosingMarkers(lines: seq<Line>, loops: seq<LoopInfo>, l: nat): seq<Entry> {
    if |loops| == 0 then []
    else
      var n := |loops| - 1;
      (if InBody(lines, loops[n].lineno, l) then [EndLoop(Iters(Counted(loops)), Ids(loops))] else [])
      + ClosingMarkers(lines, loops[..n], l)
  }

  /** With the closing markers of the rest still to come, every line gets those of all loops; returns get none. */
  ghost predicate Closing(lines: seq<Line>, before: Traces, loops: seq<LoopInfo>, now: Traces, rest: seq<LoopInfo>) {
    && (forall l: nat ::
          At'(now, At(l)) + ClosingMarkers(lines, rest, l) == At'(before, At(l)) + ClosingMarkers(lines, loops, l))
    && (forall l: nat :: At'(now, ReturnAt(l)) == At'(before, ReturnAt(l)))
  }

  ghost predicate AllClosed(lines: seq<Line>, before: Traces, loops: seq<LoopInfo>, after: Traces) {
    && (forall l: nat :: At'(after, At(l)) == At'(before, At(l)) + ClosingMarkers(lines, loops, l))
    && (forall l: nat :: At'(after, ReturnAt(l)) == At'(before, ReturnAt(l)))
  }

  lemma CloseOneMore(lines: seq<Line>, before: Traces, loops: seq<LoopInfo>, now: Traces, after: Traces,
      rest: seq<LoopInfo>)
    requires |rest| > 0 && Closing(lines, before, loops, now, rest)
    requires Extended(now, after, BodyKeys(lines, rest[|rest| - 1].lineno), EndLoop(Iters(Counted(rest)), Ids(rest)))
    ensures Closing(lines, before, loops, after, rest[..|rest| - 1])
  {
    var n := |rest| - 1;
    var e := EndLoop(Iters(Counted(rest)), Ids(rest));
    forall l: nat
      ensures At'(after, At(l)) + ClosingMarkers(lines, rest[..n], l)
        == At'(before, At(l)) + ClosingMarkers(lines, loops, l)
    {
      assert At(l) in BodyKeys(lines, rest[n].lineno) <==> InBody(lines, rest[n].lineno, l);
      var mine := if InBody(lines, rest[n].lineno, l) then [e] else [];
      MoveBracket(At'(now, At(l)), mine, ClosingMarkers(lines, rest[..n], l));
    }
    forall l: nat ensures At'(after, ReturnAt(l)) == At'(before, ReturnAt(l)) {
      assert At'(now, ReturnAt(l)) + [] == At'(now, ReturnAt(l));
    }
  }

  lemma ClosingStarts(lines: seq<Line>, data: Traces, loops: seq<LoopInfo>)
    ensures Closing(lines, data, loops, data, loops)
  {
  }

  lemma ClosingEnds(lines: seq<Line>, before: Traces, loops: seq<LoopInfo>, after: Traces)
    requires Closing(lines, before, loops, after, [])
    ensures AllClosed(lines, before, loops, after)
  {
    assert forall l: nat :: At'(after, At(l)) + [] == At'(after, At(l));
  }

  lemma KeysOfBody(lines: seq<Line>, n: nat, body: seq<nat>)
    requires forall l: nat :: l in body <==> InBody(lines, n, l)
    ensures (set j | 0 <= j < |body| :: At(body[j])) == BodyKeys(lines, n)
  {
    var keys := set j | 0 <= j < |body| :: At(body[j]);
    forall j | 0 <= j < |body| ensures At(body[j]) in BodyKeys(lines, n) {
      assert body[j] in body;
    }
    forall l: nat | InBody(lines, n, l) ensures At(l) in keys {
      var j :| 0 <= j < |body| && body[j] == l;
    }
  }

  lemma AppendIsExtended(data: Traces, k: Key, e: Entry)
    ensures Extended(data, data[k := At'(data, k) + [e]], {k}, e)
  {
  }

  // ---------- what ends when control reaches a line ----------

  /** A return statement of the same function has just been traced: every loop ends. */
  predicate EndsAll(lines: seq<Line>, prev: Entry, frame: Frame)
    requires prev.Snapshot? && prev.key.line < |lines|
  {
    lines[prev.key.line].Code? && lines[prev.key.line].isReturn && frame.name == prev.frame.name
  }

  /** Control is at another line that is not indented deeper than the innermost loop: that loop ends. */
  predicate EndsTop(lines: seq<Line>, top: LoopInfo, lineno: nat)
    requires lineno < |lines|
  {
    lines[lineno].indent <= top.indent && lineno != top.lineno
  }

  predicate LeftByBreak(lines: seq<Line>, prev: Entry)
    requires prev.Snapshot? && prev.key.line < |lines|
  {
    lines[prev.key.line].Code? && lines[prev.key.line].isBreak
  }

  // ---------- one event, and any number of them ----------

  /** What the debugger reports. */
  datatype Event = LineReached(frame: Frame, lineno: nat) | Returned(frame: Frame, lineno: nat, exception: bool)

  /** The active loops and all snapshots so far, the one taken at time t at place t. */
  datatype Progress = Progress(loops: seq<LoopInfo>, history: seq<Entry>)

  function Last(history: seq<Entry>): Option<Entry> {
    if |history| == 0 then None else Some(history[|history| - 1])
  }

  ghost predicate HistoryOk(lines: seq<Line>, history: seq<Entry>) {
    forall t :: 0 <= t < |history| ==> history[t].Snapshot? && history[t].key.line < |lines|
  }

  ghost predicate LastOk(lines: seq<Line>, prev: Option<Entry>) {
    prev.Some? ==> prev.value.Snapshot? && prev.value.key.line < |lines|
  }

  function LoopsAfterEnd(lines: seq<Line>, loops: seq<LoopInfo>, prev: Option<Entry>, frame: Frame, lineno: nat)
    : seq<LoopInfo>
    requires lineno < |lines| && LastOk(lines, prev)
  {
    var n := |loops| - 1;
    if prev.None? || n < 0 || loops[n].frame.id != frame.id then loops
    else if EndsAll(lines, prev.value, frame) then []
    else if EndsTop(lines, loops[n], lineno) then loops[..n]
    else loops
  }

  function LoopsAfterBegin(lines: seq<Line>, loops: seq<LoopInfo>, frame: Frame, lineno: nat): seq<LoopInfo>
    requires lineno < |lines|
  {
    if !(lines[lineno].Code? && lines[lineno].isLoop) then loops
    else if |loops| > 0 && loops[|loops| - 1].lineno == lineno then Counted(loops)
    else loops + [LoopInfo(frame, lineno, lines[lineno].indent, 0)]
  }

  function Taken(loops: seq<LoopInfo>, time: nat, frame: Frame, key: Key, exception: bool): Entry {
    Snapshot(time, frame, key, Iters(loops), Ids(loops), exception || time + 1 >= RUNPY_LIMIT)
  }

  /** What one event makes of the active loops and the history. */
  ghost function Step(lines: seq<Line>, p: Progress, event: Event): (after: Progress)
    requires HistoryOk(lines, p.history) && event.lineno < |lines|
    ensures HistoryOk(lines, after.history)
  {
    match event
    case LineReached(frame, lineno) =>
      var loops := LoopsAfterEnd(lines, p.loops, Last(p.history), frame, lineno);
      Progress(LoopsAfterBegin(lines, loops, frame, lineno),
               p.history + [Taken(loops, |p.history|, frame, At(lineno), false)])
    case Returned(frame, lineno, exception) =>
      var history := p.history + [Taken(p.loops, |p.history|, frame, ReturnAt(lineno), exception)];
      Progress(LoopsAfterEnd(lines, p.loops, Last(history), frame, lineno), history)
  }

  /** The end markers that line l gets from the loops that are left. */
  ghost function EndMarkers(lines: seq<Line>, loops: seq<LoopInfo>, prev: Option<Entry>, frame: Frame, lineno: nat,
      l: nat): seq<Entry>
    requires lineno < |lines| && LastOk(lines, prev)
  {
    var n := |loops| - 1;
    if prev.None? || n < 0 || loops[n].frame.id != frame.id then []
    else if EndsAll(lines, prev.value, frame) then ClosingMarkers(lines, loops, l)
    else if EndsTop(lines, loops[n], lineno) && InBody(lines, loops[n].lineno, l) then
      [EndLoop(Iters(if LeftByBreak(lines, prev.value) then Counted(loops) else loops), Ids(loops))]
    else []
  }

  /** The begin marker that line l gets when a loop starts at another line. */
  ghost function BeginMarkers(lines: seq<Line>, loops: seq<LoopInfo>, frame: Frame, lineno: nat, l: nat): seq<Entry>
    requires lineno < |lines|
  {
    var more := LoopsAfterBegin(lines, loops, frame, lineno);
    if |more| > |loops| && InBody(lines, lineno, l) then [BeginLoop(Iters(more), Ids(more))] else []
  }

  /** What one event appends to the trace with key k. */
  ghost function Added(lines: seq<Line>, p: Progress, event: Event, k: Key): seq<Entry>
    requires HistoryOk(lines, p.history) && event.lineno < |lines|
  {
    var snapshot := Step(lines, p, event).history[|p.history|];
    var here := if k == snapshot.key then [snapshot] else [];
    match event
    case LineReached(frame, lineno) =>
      var loops := LoopsAfterEnd(lines, p.loops, Last(p.history), frame, lineno);
      if k.ReturnAt? then here
      else EndMarkers(lines, p.loops, Last(p.history), frame, lineno, k.line)
           + here + BeginMarkers(lines, loops, frame, lineno, k.line)
    case Returned(frame, lineno, _) =>
      if k.ReturnAt? then here
      else EndMarkers(lines, p.loops, Some(snapshot), frame, lineno, k.line)
  }

  /** Every line has got the end markers of the loops that are left, and nothing else has changed. */
  ghost predicate Ended(lines: seq<Line>, before: Traces, after: Traces, loops: seq<LoopInfo>, prev: Option<Entry>,
      frame: Frame, lineno: nat)
    requires lineno < |lines| && LastOk(lines, prev)
  {
    && (forall l: nat ::
          At'(after, At(l)) == At'(before, At(l)) + EndMarkers(lines, loops, prev, frame, lineno, l))
    && (forall l: nat :: At'(after, ReturnAt(l)) == At'(before, ReturnAt(l)))
  }

  /** Every line of the body has got the begin marker of the loop that starts, if one does. */
  ghost predicate Begun(lines: seq<Line>, before: Traces, after: Traces, loops: seq<LoopInfo>, frame: Frame,
      lineno: nat)
    requires lineno < |lines|
  {
    && (forall l: nat :: At'(after, At(l)) == At'(before, At(l)) + BeginMarkers(lines, loops, frame, lineno, l))
    && (forall l: nat :: At'(after, ReturnAt(l)) == At'(before, ReturnAt(l)))
  }

  lemma LinesOfBody(lines: seq<Line>, before: Traces, after: Traces, n: nat, e: Entry)
    requires Extended(before, after, BodyKeys(lines, n), e)
    ensures forall l: nat :: At'(after, At(l)) == At'(before, At(l)) + if InBody(lines, n, l) then [e] else []
    ensures forall l: nat :: At'(after, ReturnAt(l)) == At'(before, ReturnAt(l))
  {
    forall l: nat ensures At'(after, At(l)) == At'(before, At(l)) + if InBody(lines, n, l) then [e] else [] {
      assert At(l) in BodyKeys(lines, n) <==> InBody(lines, n, l);
    }
    forall l: nat ensures At'(after, ReturnAt(l)) == At'(before, ReturnAt(l)) {
      assert At'(before, ReturnAt(l)) + [] == At'(before, ReturnAt(l));
    }
  }

  lemma NothingBegun(lines: seq<Line>, data: Traces, loops: seq<LoopInfo>, frame: Frame, lineno: nat)
    requires lineno < |lines| && |LoopsAfterBegin(lines, loops, frame, lineno)| == |loops|
    ensures Begun(lines, data, data, loops, frame, lineno)
  {
    assert forall l: nat :: At'(data, At(l)) + [] == At'(data, At(l));
  }

  lemma LoopBegun(lines: seq<Line>, before: Traces, after: Traces, loops: seq<LoopInfo>, frame: Frame, lineno: nat)
    requires lineno < |lines|
    requires var more := LoopsAfterBegin(lines, loops, frame, lineno);
      |more| > |loops| && Extended(before, after, BodyKeys(lines, lineno), BeginLoop(Iters(more), Ids(more)))
    ensures Begun(lines, before, after, loops, frame, lineno)
  {
    hide Extended, BodyKeys, InBody;
    var more := LoopsAfterBegin(lines, loops, frame, lineno);
    LinesOfBody(lines, before, after, lineno, BeginLoop(Iters(more), Ids(more)));
  }

  lemma NothingEnded(lines: seq<Line>, data: Traces, loops: seq<LoopInfo>, prev: Option<Entry>, frame: Frame,
      lineno: nat)
    requires lineno < |lines| && LastOk(lines, prev)
    requires prev.None? || |loops| == 0 || loops[|loops| - 1].frame.id != frame.id
      || (!EndsAll(lines, prev.value, frame) && !EndsTop(lines, loops[|loops| - 1], lineno))
    ensures Ended(lines, data, data, loops, prev, frame, lineno)
  {
    hide InBody, EndsAll, EndsTop;
    assert forall l: nat :: At'(data, At(l)) + [] == At'(data, At(l));
  }

  lemma AllEnded(lines: seq<Line>, before: Traces, after: Traces, loops: seq<LoopInfo>, prev: Option<Entry>,
      frame: Frame, lineno: nat)
    requires lineno < |lines| && LastOk(lines, prev) && prev.Some? && EndsAll(lines, prev.value, frame)
    requires |loops| > 0 && loops[|loops| - 1].frame.id == frame.id && AllClosed(lines, before, loops, after)
    ensures Ended(lines, before, after, loops, prev, frame, lineno)
  {
    hide InBody, EndsAll, ClosingMarkers;
  }

  lemma TopEnded(lines: seq<Line>, before: Traces, after: Traces, loops: seq<LoopInfo>, prev: Option<Entry>,
      frame: Frame, lineno: nat)
    requires lineno < |lines| && LastOk(lines, prev) && prev.Some? && !EndsAll(lines, prev.value, frame)
    requires |loops| > 0 && loops[|loops| - 1].frame.id == frame.id && EndsTop(lines, loops[|loops| - 1], lineno)
    requires Extended(before, after, BodyKeys(lines, loops[|loops| - 1].lineno),
               EndLoop(Iters(if LeftByBreak(lines, prev.value) then Counted(loops) else loops), Ids(loops)))
    ensures Ended(lines, before, after, loops, prev, frame, lineno)
  {
    hide InBody, EndsAll, EndsTop, LeftByBreak, Extended, BodyKeys, ClosingMarkers;
    var e := EndLoop(Iters(if LeftByBreak(lines, prev.value) then Counted(loops) else loops), Ids(loops));
    LinesOfBody(lines, before, after, loops[|loops| - 1].lineno, e);
  }

  /** The three steps at a line together. */
  lemma LineAdds(lines: seq<Line>, p: Progress, frame: Frame, lineno: nat,
      d0: Traces, d1: Traces, d2: Traces, d3: Traces)
    requires HistoryOk(lines, p.history) && lineno < |lines|
    requires Ended(lines, d0, d1, p.loops, Last(p.history), frame, lineno)
    requires var loops := LoopsAfterEnd(lines, p.loops, Last(p.history), frame, lineno);
      && Extended(d1, d2, {At(lineno)}, Taken(loops, |p.history|, frame, At(lineno), false))
      && Begun(lines, d2, d3, loops, frame, lineno)
    ensures forall k :: At'(d3, k) == At'(d0, k) + Added(lines, p, LineReached(frame, lineno), k)
  {
    hide LoopsAfterEnd, LoopsAfterBegin, EndMarkers, BeginMarkers, At', Iters, Ids;
    var event := LineReached(frame, lineno);
    var loops := LoopsAfterEnd(lines, p.loops, Last(p.history), frame, lineno);
    var e := Taken(loops, |p.history|, frame, At(lineno), false);
    forall k ensures At'(d3, k) == At'(d0, k) + Added(lines, p, event, k) {
      var here := if k in {At(lineno)} then [e] else [];
      assert At'(d2, k) == At'(d1, k) + here;
      if k.At? {
        var ends := EndMarkers(lines, p.loops, Last(p.history), frame, lineno, k.line);
        var begins := BeginMarkers(lines, loops, frame, lineno, k.line);
        assert At'(d1, At(k.line)) == At'(d0, k) + ends;
        assert At'(d3, At(k.line)) == At'(d2, k) + begins;
        assert Added(lines, p, event, k) == ends + here + begins;
        Regroup(At'(d0, k), ends, here, begins);
      } else {
        assert At'(d1, ReturnAt(k.line)) == At'(d0, k);
        assert At'(d3, ReturnAt(k.line)) == At'(d2, k);
      }
    }
  }

  lemma Regroup(a: seq<Entry>, b: seq<Entry>, c: seq<Entry>, d: seq<Entry>)
    ensures a + b + c + d == a + (b + c + d)
  {
  }

  /** The two steps at a return together. */
  lemma ReturnAdds(lines: seq<Line>, p: Progress, frame: Frame, lineno: nat, exception: bool,
      d0: Traces, d1: Traces, d2: Traces)
    requires HistoryOk(lines, p.history) && lineno < |lines|
    requires var e := Taken(p.loops, |p.history|, frame, ReturnAt(lineno), exception);
      Extended(d0, d1, {ReturnAt(lineno)}, e) && Ended(lines, d1, d2, p.loops, Some(e), frame, lineno)
    ensures forall k :: At'(d2, k) == At'(d0, k) + Added(lines, p, Returned(frame, lineno, exception), k)
  {
    hide LoopsAfterEnd, EndMarkers, BeginMarkers;
    var event := Returned(frame, lineno, exception);
    forall k ensures At'(d2, k) == At'(d0, k) + Added(lines, p, event, k) {
      if k.At? {
        assert At'(d1, At(k.line)) == At'(d0, k) + [] == At'(d0, k);
      } else {
        assert At'(d2, ReturnAt(k.line)) == At'(d1, k);
      }
    }
  }

  ghost predicate EventsOk(lines: seq<Line>, events: seq<Event>) {
    forall i :: 0 <= i < |events| ==> events[i].lineno < |lines|
  }

  /** Loops and history after any number of events. */
  ghost function After(lines: seq<Line>, events: seq<Event>): (p: Progress)
    requires EventsOk(lines, events)
    ensures HistoryOk(lines, p.history)
  {
    if |events| == 0 then Progress([], [])
    else Step(lines, After(lines, events[..|events| - 1]), events[|events| - 1])
  }

  /** The trace with key k after any number of events. */
  ghost function TraceAfter(lines: seq<Line>, events: seq<Event>, k: Key): seq<Entry>
    requires EventsOk(lines, events)
  {
    if |events| == 0 then []
    else
      var before := events[..|events| - 1];
      TraceAfter(lines, before, k) + Added(lines, After(lines, before), events[|events| - 1], k)
  }

  ghost predicate IsTraced(event: Event, e: Entry) {
    && e.Snapshot? && e.frame == event.frame
    && (e.key == if event.LineReached? then At(event.lineno) else ReturnAt(event.lineno))
    && (e.thrown <==> (event.Returned? && event.exception) || e.time + 1 >= RUNPY_LIMIT)
  }

  /** There is one snapshot for each event, in order, of its frame, at its place, and marked if something was thrown. */
  lemma {:induction false} HistoryFollowsEvents(lines: seq<Line>, events: seq<Event>)
    requires EventsOk(lines, events)
    ensures |After(lines, events).history| == |events|
    ensures forall t :: 0 <= t < |events| ==>
      IsTraced(events[t], After(lines, events).history[t]) && After(lines, events).history[t].time == t
  {
    if |events| == 0 {
    } else {
      HistoryFollowsEvents(lines, events[..|events| - 1]);
    }
  }

  class Logger {
    const lines: seq<Line>
    var data: Traces
    var time: nat
    var prevEnv: Option<Entry>
    var activeLoops: seq<LoopInfo>
    var quitting: bool
    ghost var history: seq<Entry>

    ghost predicate Valid()
      reads this
    {
      && LoopsOk(lines, activeLoops)
      && MarkersOk(lines, data, activeLoops)
      && TimesOk(data, history)
      && time == |history|
      && prevEnv == (if |history| == 0 then None else Some(history[|history| - 1]))
      && (forall t :: 0 <= t < |history| ==> history[t].Snapshot? && history[t].key.line < |lines|)
    }

    constructor (lines: seq<Line>)
      ensures Valid() && this.lines == lines && !quitting
      ensures history == [] && activeLoops == [] && data == map[] && time == 0
    {
      this.lines := lines;
      data, time, prevEnv, activeLoops, quitting, history := map[], 0, None, [], false, [];
    }

    /** The statements of the loop at a line, in order. */
    method StmtsInLoop(lineno: nat) returns (result: seq<nat>)
      requires lineno < |lines|
      ensures forall l: nat :: l in result <==> InBody(lines, lineno, l)
      ensures forall i, j :: 0 <= i < j < |result| ==> result[i] < result[j]
    {
      result := [];
      var l := lineno + 1;
      while l < |lines|
        invariant lineno < l <= |lines|
        invariant forall m: nat :: m in result <==> m < l && InBody(lines, lineno, m)
        invariant forall i, j :: 0 <= i < j < |result| ==> result[i] < result[j]
        invariant forall i :: 0 <= i < |result| ==> result[i] < l
        invariant forall m :: lineno < m < l && lines[m].Code? ==> lines[m].indent > lines[lineno].indent
      {
        if lines[l].Code? {
          if lines[l].indent <= lines[lineno].indent {
            return;
          }
          result := result + [l];
        }
        l := l + 1;
      }
    }

    /** Puts a marker at the end of the trace of each statement in a loop. */
    method Mark(lineno: nat, e: Entry)
      requires lineno < |lines|
      modifies `data
      ensures Extended(old(data), data, BodyKeys(lines, lineno), e)
    {
      var body := StmtsInLoop(lineno);
      var i := 0;
      ghost var keys: set<Key> := {};
      while i < |body|
        invariant 0 <= i <= |body|
        invariant Extended(old(data), data, keys, e)
        invariant keys == set j | 0 <= j < i :: At(body[j])
      {
        assert At(body[i]) !in keys;
        data := data[At(body[i]) := At'(data, At(body[i])) + [e]];
        keys := keys + {At(body[i])};
        i := i + 1;
      }
      KeysOfBody(lines, lineno, body);
    }

    method RecordLoopBegin(frame: Frame, lineno: nat)
      requires Valid() && lineno < |lines|
      modifies `activeLoops, `data
      ensures Valid() && activeLoops == LoopsAfterBegin(lines, old(activeLoops), frame, lineno)
      ensures Begun(lines, old(data), data, old(activeLoops), frame, lineno)
    {
      hide MarkersOk, TimesOk, BodyKeys, Extended, Begun;
      if lines[lineno].Code? && lines[lineno].isLoop {
        if |activeLoops| > 0 && activeLoops[|activeLoops| - 1].lineno == lineno {
          CountIteration();
          NothingBegun(lines, data, old(activeLoops), frame, lineno);
        } else {
          ghost var loops := activeLoops;
          var loop := LoopInfo(frame, lineno, lines[lineno].indent, 0);
          activeLoops := activeLoops + [loop];
          var e := BeginLoop(Iters(activeLoops), Ids(activeLoops));
          Mark(lineno, e);
          BeginKeepsMarkers(lines, old(data), data, loops, loop);
          MarkerKeepsTimes(old(data), data, history, BodyKeys(lines, lineno), e);
          LoopBegun(lines, old(data), data, loops, frame, lineno);
        }
      } else {
        NothingBegun(lines, data, activeLoops, frame, lineno);
      }
    }

    method CountIteration()
      requires Valid() && |activeLoops| > 0
      modifies `activeLoops
      ensures Valid()
      ensures activeLoops == Counted(old(activeLoops))
    {
      hide MarkersOk, TimesOk;
      var n := |activeLoops| - 1;
      BumpKeepsMarkers(lines, data, activeLoops, Counted(activeLoops));
      activeLoops := activeLoops[n := activeLoops[n].(iter := activeLoops[n].iter + 1)];
    }

    /** The innermost loop ends. */
    method CloseLoop()
      requires Valid() && |activeLoops| > 0
      modifies `activeLoops, `data
      ensures Valid()
      ensures activeLoops == old(activeLoops)[..|old(activeLoops)| - 1]
      ensures Extended(old(data), data, BodyKeys(lines, old(activeLoops)[|old(activeLoops)| - 1].lineno),
        EndLoop(Iters(old(activeLoops)), Ids(old(activeLoops))))
    {
      hide MarkersOk, TimesOk, BodyKeys, Extended;
      var n := |activeLoops| - 1;
      var e := EndLoop(Iters(activeLoops), Ids(activeLoops));
      Mark(activeLoops[n].lineno, e);
      EndKeepsMarkers(lines, old(data), data, activeLoops);
      MarkerKeepsTimes(old(data), data, history, BodyKeys(lines, activeLoops[n].lineno), e);
      activeLoops := activeLoops[..n];
    }

    /** All loops end, whatever function they belong to. */
    method CloseAll()
      requires Valid()
      modifies `activeLoops, `data
      ensures Valid() && activeLoops == []
      ensures AllClosed(lines, old(data), old(activeLoops), data)
    {
      hide MarkersOk, TimesOk, BodyKeys, Extended, AllClosed, Closing, LoopsOk;
      ghost var loops := activeLoops;
      ClosingStarts(lines, data, loops);
      while |activeLoops| > 0
        invariant Valid() && Closing(lines, old(data), loops, data, activeLoops)
      {
        ghost var now, rest := data, activeLoops;
        CountIteration();
        CloseLoop();
        CloseOneMore(lines, old(data), loops, now, data, rest);
      }
      ClosingEnds(lines, old(data), loops, data);
    }

    method RecordLoopEnd(frame: Frame, lineno: nat)
      requires Valid() && lineno < |lines|
      modifies `activeLoops, `data
      ensures Valid() && activeLoops == LoopsAfterEnd(lines, old(activeLoops), prevEnv, frame, lineno)
      ensures Ended(lines, old(data), data, old(activeLoops), prevEnv, frame, lineno)
    {
      hide MarkersOk, TimesOk, BodyKeys, Extended, AllClosed, Ended;
      ghost var loops := activeLoops;
      if prevEnv.Some? && |activeLoops| > 0 && activeLoops[|activeLoops| - 1].frame.id == frame.id {
        if EndsAll(lines, prevEnv.value, frame) {
          CloseAll();
          AllEnded(lines, old(data), data, loops, prevEnv, frame, lineno);
        } else if EndsTop(lines, activeLoops[|activeLoops| - 1], lineno) {
          // A break does not go through the loop header, so the last iteration has not been counted.
          if LeftByBreak(lines, prevEnv.value) {
            CountIteration();
          }
          CloseLoop();
          TopEnded(lines, old(data), data, loops, prevEnv, frame, lineno);
        } else {
          NothingEnded(lines, data, loops, prevEnv, frame, lineno);
        }
      } else {
        NothingEnded(lines, data, loops, prevEnv, frame, lineno);
      }
    }

    method RecordEnv(frame: Frame, key: Key, exception: bool)
      requires Valid() && key.line < |lines|
      modifies `data, `time, `prevEnv, `quitting, `history
      ensures Valid() && activeLoops == old(activeLoops)
      ensures time == old(time) + 1
      ensures var e := Taken(activeLoops, old(time), frame, key, exception);
        history == old(history) + [e] && prevEnv == Some(e) && Extended(old(data), data, {key}, e)
      ensures quitting <==> old(quitting) || time >= RUNPY_LIMIT
    {
      hide MarkersOk, TimesOk, Extended, LoopsOk;
      var e := Taken(activeLoops, time, frame, key, exception);
      AppendIsExtended(data, key, e);
      time := time + 1;
      data := data[key := At'(data, key) + [e]];
      prevEnv := Some(e);
      if time >= RUNPY_LIMIT {
        quitting := true;
      }
      SnapshotKeepsMarkers(lines, old(data), data, activeLoops, e, key);
      SnapshotKeepsTimes(old(data), data, history, e);
      history := history + [e];
    }

    ghost function Now(): Progress
      reads this
    {
      Progress(activeLoops, history)
    }

    /** Each trace has grown by what the event adds to it. */
    twostate predicate Grown(event: Event)
      requires old(Valid()) && event.lineno < |lines|
      reads this
    {
      && Now() == Step(lines, old(Now()), event)
      && forall k :: At'(data, k) == At'(old(data), k) + Added(lines, old(Now()), event, k)
    }

    /** Control reaches a line: loops that it leaves end, the line is recorded, its own loop begins or goes on. */
    method UserLine(frame: Frame, lineno: nat)
      requires Valid() && lineno < |lines|
      modifies this
      ensures Valid() && Grown(LineReached(frame, lineno))
      ensures quitting <==> old(quitting) || time >= RUNPY_LIMIT
    {
      hide MarkersOk, TimesOk, Extended, LoopsOk, LoopsAfterEnd, LoopsAfterBegin, Ended, Begun, Added;
      ghost var p, d0 := Now(), data;
      RecordLoopEnd(frame, lineno);
      ghost var d1 := data;
      RecordEnv(frame, At(lineno), false);
      ghost var d2 := data;
      RecordLoopBegin(frame, lineno);
      LineAdds(lines, p, frame, lineno, d0, d1, d2, data);
    }

    /** A function returns from a line, normally or with an exception. */
    method UserReturn(frame: Frame, lineno: nat, exception: bool)
      requires Valid() && lineno < |lines|
      modifies this
      ensures Valid() && Grown(Returned(frame, lineno, exception))
      ensures quitting <==> old(quitting) || time >= RUNPY_LIMIT
    {
      hide MarkersOk, TimesOk, Extended, LoopsOk, LoopsAfterEnd, Ended, Added;
      ghost var p, d0 := Now(), data;
      RecordEnv(frame, ReturnAt(lineno), exception);
      ghost var d1 := data;
      RecordLoopEnd(frame, lineno);
      ReturnAdds(lines, p, frame, lineno, exception, d0, d1, data);
    }
  }
}
