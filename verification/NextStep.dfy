/** The pass that shows at each line the values after its execution: each snapshot gives way to the frame's next one. */
module NextStep {
  import opened Basics
  import opened Tracer

  /** The first time from t on at which the given frame was traced. */
  function NextOf(history: seq<Entry>, frame: nat, t: nat): (next: Option<nat>)
    requires forall i :: 0 <= i < |history| ==> history[i].Snapshot?
    ensures next.Some? ==> t <= next.value < |history| && history[next.value].frame.id == frame
    ensures next.Some? ==> forall i :: t <= i < next.value ==> history[i].frame.id != frame
    ensures next.None? ==> forall i :: t <= i < |history| ==> history[i].frame.id != frame
    decreases |history| - t
  {
    if t >= |history| then None
    else if history[t].frame.id == frame then Some(t)
    else NextOf(history, frame, t + 1)
  }

  /** At a loop header only steps into the loop are shown, or an exception. */
  predicate Shown(lines: seq<Line>, now: Entry, next: Entry)
    requires now.Snapshot? && next.Snapshot? && now.key.line < |lines| && next.key.line < |lines|
  {
    var curr := lines[now.key.line];
    next.thrown || !(curr.Code? && curr.isLoop) || lines[next.key.line].indent > curr.indent
  }

  /** What becomes of one entry of a trace. */
  function Shift(lines: seq<Line>, history: seq<Entry>, e: Entry): seq<Entry>
    requires HistoryOk(lines, history) && (e.Snapshot? ==> e.key.line < |lines|)
  {
    if !e.Snapshot? then [e]
    else
      var next := NextOf(history, e.frame.id, e.time + 1);
      if next.Some? && Shown(lines, e, history[next.value]) then [history[next.value]] else []
  }

  ghost predicate TraceOk(lines: seq<Line>, trace: seq<Entry>) {
    forall i :: 0 <= i < |trace| && trace[i].Snapshot? ==> trace[i].key.line < |lines|
  }

  function Shifted(lines: seq<Line>, history: seq<Entry>, trace: seq<Entry>): seq<Entry>
    requires HistoryOk(lines, history) && TraceOk(lines, trace)
  {
    if |trace| == 0 then []
    else Shifted(lines, history, trace[..|trace| - 1]) + Shift(lines, history, trace[|trace| - 1])
  }

  /** A frame goes on after it has returned, as a generator does: the pass then trips over the key of the return. */
  ghost predicate Resumed(history: seq<Entry>, e: Entry)
    requires forall i :: 0 <= i < |history| ==> history[i].Snapshot?
  {
    e.Snapshot? && e.key.ReturnAt? && NextOf(history, e.frame.id, e.time + 1).Some?
  }

  function Markers(trace: seq<Entry>): seq<Entry> {
    if |trace| == 0 then []
    else Markers(trace[..|trace| - 1]) + if trace[|trace| - 1].Snapshot? then [] else [trace[|trace| - 1]]
  }

  /** The pass keeps the markers of every trace, in order, and so the brackets that are open at its end. */
  lemma {:induction false} ShiftingKeepsMarkers(lines: seq<Line>, history: seq<Entry>, trace: seq<Entry>)
    requires HistoryOk(lines, history) && TraceOk(lines, trace)
    ensures Markers(Shifted(lines, history, trace)) == Markers(trace)
    ensures Open(Shifted(lines, history, trace)) == Open(trace)
  {
    if |trace| == 0 {
    } else {
      hide Shifted, Shift, NextOf, Markers, Open;
      var shorter, last := trace[..|trace| - 1], trace[|trace| - 1];
      ShiftingKeepsMarkers(lines, history, shorter);
      var front, back := Shifted(lines, history, shorter), Shift(lines, history, last);
      ShiftedStep(lines, history, trace);
      ShiftOfOne(lines, history, last);
      OneMoreMarker(front, back, shorter, last);
      assert shorter + [last] == trace;
    }
  }

  lemma ShiftedStep(lines: seq<Line>, history: seq<Entry>, trace: seq<Entry>)
    requires HistoryOk(lines, history) && TraceOk(lines, trace) && |trace| > 0
    ensures Shifted(lines, history, trace)
      == Shifted(lines, history, trace[..|trace| - 1]) + Shift(lines, history, trace[|trace| - 1])
  {
  }

  lemma ShiftOfOne(lines: seq<Line>, history: seq<Entry>, e: Entry)
    requires HistoryOk(lines, history) && (e.Snapshot? ==> e.key.line < |lines|)
    ensures var back := Shift(lines, history, e);
      |back| <= 1 && if e.Snapshot? then |back| == 1 ==> back[0].Snapshot? else back == [e]
  {
  }

  lemma OneMoreMarker(front: seq<Entry>, back: seq<Entry>, shorter: seq<Entry>, last: Entry)
    requires Markers(front) == Markers(shorter) && Open(front) == Open(shorter)
    requires |back| <= 1 && if last.Snapshot? then |back| == 1 ==> back[0].Snapshot? else back == [last]
    ensures Markers(front + back) == Markers(shorter + [last])
    ensures Open(front + back) == Open(shorter + [last])
  {
    assert (shorter + [last])[..|shorter|] == shorter;
    if |back| == 0 {
      assert front + back == front;
    } else {
      assert (front + back)[..|front|] == front;
    }
  }

  /** Everything shown at a line happened later, in the same frame, with nothing of that frame in between. */
  lemma ShiftLooksAhead(lines: seq<Line>, history: seq<Entry>, e: Entry)
    requires HistoryOk(lines, history) && e.Snapshot? && e.key.line < |lines| && |Shift(lines, history, e)| > 0
    requires forall t :: 0 <= t < |history| ==> history[t].time == t
    ensures var s := Shift(lines, history, e)[0];
      && s.Snapshot? && s.time > e.time && s.frame.id == e.frame.id
      && forall t :: e.time < t < s.time ==> history[t].frame.id != e.frame.id
  {
  }

  ghost predicate IsHeader(line: Line) {
    line.Code? && line.isLoop
  }

  /**
   At a loop header, steps into the body are shown, and what has thrown; steps behind the body are not. At other lines
   the frame's next step is always shown, and nothing is if there is none.
   */
  lemma HeaderShowsBody(lines: seq<Line>, history: seq<Entry>, e: Entry, t: nat)
    requires HistoryOk(lines, history) && e.Snapshot? && e.key.line < |lines| && e.time < t <= |history|
    requires forall i :: e.time < i < t ==> history[i].frame.id != e.frame.id
    requires t < |history| ==> history[t].frame.id == e.frame.id
    ensures t == |history| ==> Shift(lines, history, e) == []
    ensures t < |history| && (!IsHeader(lines[e.key.line]) || history[t].thrown) ==>
      Shift(lines, history, e) == [history[t]]
    ensures t < |history| && InBody(lines, e.key.line, history[t].key.line) ==> Shift(lines, history, e) == [history[t]]
    ensures t < |history| && IsHeader(lines[e.key.line]) && !history[t].thrown ==>
      (lines[history[t].key.line].indent <= lines[e.key.line].indent ==> Shift(lines, history, e) == [])
  {
    var next := NextOf(history, e.frame.id, e.time + 1);
    assert next == if t < |history| then Some(t) else None;
    if t < |history| && InBody(lines, e.key.line, history[t].key.line) {
      assert lines[history[t].key.line].indent > lines[e.key.line].indent;
    }
  }

  // ---------- the method ----------

  ghost predicate Collected(envs: map<nat, Entry>, history: seq<Entry>) {
    forall t :: t in envs ==> t < |history| && envs[t] == history[t]
  }

  method EnvsByTime(data: Traces, ghost history: seq<Entry>) returns (envs: map<nat, Entry>)
    requires TimesOk(data, history)
    ensures envs == map t: nat | t < |history| :: history[t]
  {
    hide TimesOk;
    envs := map[];
    var keys := data.Keys;
    while keys != {}
      invariant keys <= data.Keys && Collected(envs, history) && AreRead(data, data.Keys - keys, envs)
      decreases keys
    {
      var k :| k in keys;
      var trace := data[k];
      var i := 0;
      while i < |trace|
        invariant 0 <= i <= |trace| && Collected(envs, history) && AreRead(data, data.Keys - keys, envs)
        invariant forall j :: 0 <= j < i && trace[j].Snapshot? ==> trace[j].time in envs
      {
        if trace[i].Snapshot? {
          TracedIsInHistory(data, history, k, i);
          envs := envs[trace[i].time := trace[i]];
        }
        i := i + 1;
      }
      keys := keys - {k};
    }
    AllAreRead(data, history, envs);
  }

  /** The table has all times in the traces with these keys. */
  ghost predicate AreRead(data: Traces, keys: set<Key>, envs: map<nat, Entry>) {
    forall k, i :: k in data && k in keys && 0 <= i < |data[k]| && data[k][i].Snapshot? ==> data[k][i].time in envs
  }

  lemma TracedIsInHistory(data: Traces, history: seq<Entry>, k: Key, i: nat)
    requires TimesOk(data, history) && k in data && i < |data[k]| && data[k][i].Snapshot?
    ensures data[k][i].time < |history| && history[data[k][i].time] == data[k][i]
  {
    assert At'(data, k) == data[k];
  }

  lemma AllAreRead(data: Traces, history: seq<Entry>, envs: map<nat, Entry>)
    requires TimesOk(data, history) && Collected(envs, history) && AreRead(data, data.Keys, envs)
    ensures envs == map t: nat | t < |history| :: history[t]
  {
    forall t: nat | t < |history| ensures t in envs {
      var trace := At'(data, history[t].key);
      var i :| 0 <= i < |trace| && trace[i] == history[t];
      assert data[history[t].key][i].time in envs;
    }
  }

  method FindNext(envs: map<nat, Entry>, frame: nat, start: nat, ghost history: seq<Entry>) returns (next: Option<nat>)
    requires forall i :: 0 <= i < |history| ==> history[i].Snapshot?
    requires envs == map t: nat | t < |history| :: history[t]
    ensures next == NextOf(history, frame, start)
  {
    var nextTime := start;
    while nextTime in envs
      invariant NextOf(history, frame, nextTime) == NextOf(history, frame, start)
      decreases |history| - nextTime
    {
      if envs[nextTime].frame.id == frame {
        return Some(nextTime);
      }
      nextTime := nextTime + 1;
    }
    return None;
  }

  /** The entries that replace one trace; None stands for the error raised at a resumed frame. */
  method ShiftTrace(lines: seq<Line>, envs: map<nat, Entry>, trace: seq<Entry>, ghost history: seq<Entry>)
    returns (r: Option<seq<Entry>>)
    requires HistoryOk(lines, history) && TraceOk(lines, trace)
    requires envs == map t: nat | t < |history| :: history[t]
    ensures r.None? <==> exists i :: 0 <= i < |trace| && Resumed(history, trace[i])
    ensures r.Some? ==> r.value == Shifted(lines, history, trace)
  {
    hide NextOf;
    var nextEnvs := [];
    var i := 0;
    while i < |trace|
      invariant 0 <= i <= |trace|
      invariant nextEnvs == Shifted(lines, history, trace[..i])
      invariant forall j :: 0 <= j < i ==> !Resumed(history, trace[j])
    {
      var env := trace[i];
      assert trace[..i + 1][..i] == trace[..i];
      if !env.Snapshot? {
        nextEnvs := nextEnvs + [env];
      } else {
        var next := FindNext(envs, env.frame.id, env.time + 1, history);
        if next.Some? {
          var nextEnv := envs[next.value];
          if env.key.ReturnAt? {
            assert Resumed(history, trace[i]);
            return None;
          }
          if Shown(lines, env, nextEnv) {
            nextEnvs := nextEnvs + [nextEnv];
          }
        }
      }
      i := i + 1;
    }
    assert trace[..i] == trace;
    return Some(nextEnvs);
  }

  method AdjustToNextTimeStep(lines: seq<Line>, data: Traces, ghost history: seq<Entry>) returns (r: Option<Traces>)
    requires TimesOk(data, history) && HistoryOk(lines, history)
    requires forall k :: k in data ==> TraceOk(lines, data[k])
    ensures r.None? <==> exists k, i :: k in data && 0 <= i < |data[k]| && Resumed(history, data[k][i])
    ensures r.Some? ==> r.value.Keys == data.Keys
    ensures r.Some? ==> forall k :: k in data ==> r.value[k] == Shifted(lines, history, data[k])
  {
    var envs := EnvsByTime(data, history);
    var newData: Traces := map[];
    var keys := data.Keys;
    while keys != {}
      invariant keys <= data.Keys && newData.Keys == data.Keys - keys
      invariant forall k :: k in newData ==> newData[k] == Shifted(lines, history, data[k])
      invariant forall k, i :: k in newData && 0 <= i < |data[k]| ==> !Resumed(history, data[k][i])
      decreases keys
    {
      var k :| k in keys;
      var next := ShiftTrace(lines, envs, data[k], history);
      if next.None? {
        return None;
      }
      newData := newData[k := next.value];
      keys := keys - {k};
    }
    return Some(newData);
  }

  // ---------- a whole traced run ----------

  /** The events of a run up to the limit, at which the tracer stops it. */
  function Ran(events: seq<Event>): seq<Event> {
    events[..Least(|events|, RUNPY_LIMIT)]
  }

  /** Loops, history and traces are exactly what the events make of them. */
  ghost predicate IsRun(lines: seq<Line>, events: seq<Event>, p: Progress, data: Traces) {
    && EventsOk(lines, events)
    && p == After(lines, events)
    && forall k :: At'(data, k) == TraceAfter(lines, events, k)
  }

  /** Every trace has been shifted. */
  ghost predicate IsShifted(lines: seq<Line>, history: seq<Entry>, before: Traces, after: Traces) {
    && HistoryOk(lines, history)
    && after.Keys == before.Keys
    && forall k :: k in before ==> TraceOk(lines, before[k]) && after[k] == Shifted(lines, history, before[k])
  }

  /** Any run of a program, traced and shifted: the data for the boxes, with the logger at its end. */
  method ComputeRuntimeData(lines: seq<Line>, events: seq<Event>) returns (r: Option<Traces>, logger: Logger)
    requires EventsOk(lines, events)
    ensures logger.Valid() && logger.lines == lines
    ensures IsRun(lines, Ran(events), logger.Now(), logger.data)
    ensures r.None? <==> exists t :: 0 <= t < |logger.history| && Resumed(logger.history, logger.history[t])
    ensures r.Some? ==> IsShifted(lines, logger.history, logger.data, r.value)
    ensures r.Some? ==> forall l: nat :: Open(At'(r.value, At(l))) == Some(Around(lines, logger.activeLoops, l))
    ensures r.Some? ==> forall l: nat ::
      Begins(At'(r.value, At(l))) - Ends(At'(r.value, At(l))) == |Around(lines, logger.activeLoops, l)|
  {
    hide IsRun, Added, MarkersOk, TimesOk, LoopsOk;
    logger := new Logger(lines);
    NothingYet(lines);
    var i := 0;
    while i < |events| && !logger.quitting
      invariant 0 <= i <= |events| && logger.Valid() && logger.lines == lines && fresh(logger)
      invariant i <= RUNPY_LIMIT && logger.time == i && (logger.quitting <==> i == RUNPY_LIMIT)
      invariant IsRun(lines, events[..i], logger.Now(), logger.data)
      decreases |events| - i
    {
      ghost var p, data := logger.Now(), logger.data;
      ItsHistory(lines, events[..i], p, data);
      match events[i] {
        case LineReached(frame, lineno) => logger.UserLine(frame, lineno);
        case Returned(frame, lineno, exception) => logger.UserReturn(frame, lineno, exception);
      }
      OneMore(lines, events, i, p, data, logger.Now(), logger.data);
      i := i + 1;
    }
    assert events[..i] == Ran(events);
    TracesAreOk(lines, logger.data, logger.history);
    r := AdjustToNextTimeStep(lines, logger.data, logger.history);
    ResumedInData(logger.data, logger.history);
    if r.Some? {
      BracketsStay(lines, logger.data, logger.history, logger.activeLoops, r.value);
    }
  }

  /** A small failure: a frame that has returned goes on, as a generator does, and there are no data. */
  method TripOverResumedFrame(lines: seq<Line>, frame: Frame) returns (r: Option<Traces>)
    requires |lines| > 0
    ensures r.None?
  {
    hide IsRun, IsShifted, After, MarkersOk, TimesOk, LoopsOk;
    var events := [LineReached(frame, 0), Returned(frame, 0, false), LineReached(frame, 0)];
    var logger;
    r, logger := ComputeRuntimeData(lines, events);
    ghost var history := logger.history;
    assert Ran(events) == events;
    HistoryFollowsEvents(lines, events);
    ItsHistory(lines, events, logger.Now(), logger.data);
    assert logger.Now() == After(lines, events) by { ItsProgress(lines, events, logger.Now(), logger.data); }
    assert IsTraced(events[1], history[1]) && IsTraced(events[2], history[2]);
    assert NextOf(history, frame.id, 2) == Some(2);
    assert Resumed(history, history[1]);
  }

  lemma ItsProgress(lines: seq<Line>, events: seq<Event>, p: Progress, data: Traces)
    requires IsRun(lines, events, p, data)
    ensures p == After(lines, events)
  {
  }

  lemma NothingYet(lines: seq<Line>)
    ensures IsRun(lines, [], Progress([], []), map[])
  {
  }

  lemma ItsHistory(lines: seq<Line>, events: seq<Event>, p: Progress, data: Traces)
    requires IsRun(lines, events, p, data)
    ensures HistoryOk(lines, p.history)
  {
  }

  lemma OneMore(lines: seq<Line>, events: seq<Event>, i: nat, p: Progress, data: Traces, q: Progress, after: Traces)
    requires EventsOk(lines, events) && i < |events| && IsRun(lines, events[..i], p, data)
    requires HistoryOk(lines, p.history) && q == Step(lines, p, events[i])
    requires forall k :: At'(after, k) == At'(data, k) + Added(lines, p, events[i], k)
    ensures IsRun(lines, events[..i + 1], q, after)
  {
    hide Step, Added, At';
    assert events[..i + 1][..i] == events[..i];
  }

  /** After the pass the brackets in each line's trace are still those of the loops around the line. */
  lemma BracketsStay(lines: seq<Line>, data: Traces, history: seq<Entry>, loops: seq<LoopInfo>, shifted: Traces)
    requires MarkersOk(lines, data, loops) && HistoryOk(lines, history) && shifted.Keys == data.Keys
    requires forall k :: k in data ==> TraceOk(lines, data[k]) && shifted[k] == Shifted(lines, history, data[k])
    ensures forall l: nat :: Open(At'(shifted, At(l))) == Some(Around(lines, loops, l))
    ensures forall l: nat :: Begins(At'(shifted, At(l))) - Ends(At'(shifted, At(l))) == |Around(lines, loops, l)|
  {
    forall l: nat
      ensures Open(At'(shifted, At(l))) == Some(Around(lines, loops, l))
      ensures Begins(At'(shifted, At(l))) - Ends(At'(shifted, At(l))) == |Around(lines, loops, l)|
    {
      ShiftingKeepsMarkers(lines, history, At'(data, At(l)));
      MatchedTraceCounts(At'(shifted, At(l)));
    }
  }

  lemma TracesAreOk(lines: seq<Line>, data: Traces, history: seq<Entry>)
    requires TimesOk(data, history)
    requires forall t :: 0 <= t < |history| ==> history[t].Snapshot? && history[t].key.line < |lines|
    ensures HistoryOk(lines, history) && forall k :: k in data ==> TraceOk(lines, data[k])
  {
    forall k | k in data ensures TraceOk(lines, data[k]) {
      assert At'(data, k) == data[k];
    }
  }

  /** The snapshots in the traces are those of the history. */
  lemma ResumedInData(data: Traces, history: seq<Entry>)
    requires TimesOk(data, history)
    ensures (exists k, i :: k in data && 0 <= i < |data[k]| && Resumed(history, data[k][i]))
      <==> exists t :: 0 <= t < |history| && Resumed(history, history[t])
  {
    if k, i :| k in data && 0 <= i < |data[k]| && Resumed(history, data[k][i]) {
      assert At'(data, k) == data[k];
      assert history[data[k][i].time] == data[k][i];
    }
    if t :| 0 <= t < |history| && Resumed(history, history[t]) {
      var k := history[t].key;
      var i :| 0 <= i < |At'(data, k)| && At'(data, k)[i] == history[t];
      assert Resumed(history, data[k][i]);
    }
  }
}
