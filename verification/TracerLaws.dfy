/** When the tracer takes a loop to be left, and how often it counts it, said of the lines and the events alone. */
module TracerLaws {
  import opened Basics
  import opened Tracer

  // ---------- when a loop ends ----------

  /** The last snapshot stands at a return statement of the same function. */
  ghost predicate ReturnTraced(lines: seq<Line>, prev: Entry, frame: Frame)
    requires prev.Snapshot? && prev.key.line < |lines|
  {
    lines[prev.key.line].Code? && lines[prev.key.line].isReturn && prev.frame.name == frame.name
  }

  /** At its header and in its body the innermost loop goes on. */
  lemma GoesOnInBody(lines: seq<Line>, loops: seq<LoopInfo>, prev: Entry, frame: Frame, l: nat)
    requires l < |lines| && LastOk(lines, Some(prev)) && LoopsOk(lines, loops) && |loops| > 0
    requires !ReturnTraced(lines, prev, frame)
    requires var n := loops[|loops| - 1].lineno; l == n || InBody(lines, n, l)
    ensures LoopsAfterEnd(lines, loops, Some(prev), frame, l) == loops
    ensures forall m: nat :: EndMarkers(lines, loops, Some(prev), frame, l, m) == []
  {
  }

  /** Control is at the first statement behind the body, or at the header of a loop around it. */
  ghost predicate IsBehind(lines: seq<Line>, n: nat, l: nat)
    requires n < |lines| && l < |lines|
  {
    || (&& n < l && lines[l].Code? && !InBody(lines, n, l)
        && forall m :: n < m < l && lines[m].Code? ==> InBody(lines, n, m))
    || InBody(lines, l, n)
  }

  /** The marker with which a loop ends: as many iterations as counted, and one more if a break has left it. */
  ghost predicate IsEndMarker(lines: seq<Line>, loops: seq<LoopInfo>, prev: Entry, e: Entry)
    requires prev.Snapshot? && prev.key.line < |lines| && |loops| > 0
  {
    var n := |loops| - 1;
    && e.EndLoop? && |e.iters| == |loops| && |e.ids| == |loops|
    && (forall i :: 0 <= i <= n ==> e.ids[i] == loops[i].lineno)
    && (forall i :: 0 <= i < n ==> e.iters[i] == loops[i].iter)
    && e.iters[n] == loops[n].iter + if lines[prev.key.line].Code? && lines[prev.key.line].isBreak then 1 else 0
  }

  /** At the end of a loop at line n each line of its body gets the marker e, and no other line gets one. */
  ghost predicate EndsWith(lines: seq<Line>, loops: seq<LoopInfo>, prev: Entry, frame: Frame, l: nat, n: nat, e: Entry)
    requires l < |lines| && LastOk(lines, Some(prev))
  {
    forall m: nat :: EndMarkers(lines, loops, Some(prev), frame, l, m) == if InBody(lines, n, m) then [e] else []
  }

  /** There the innermost loop ends, and no other; each line of its body gets one end marker, and no other line does. */
  lemma EndsBehindBody(lines: seq<Line>, loops: seq<LoopInfo>, prev: Entry, frame: Frame, l: nat) returns (e: Entry)
    requires l < |lines| && LastOk(lines, Some(prev)) && LoopsOk(lines, loops) && |loops| > 0
    requires !ReturnTraced(lines, prev, frame) && loops[|loops| - 1].frame.id == frame.id
    requires IsBehind(lines, loops[|loops| - 1].lineno, l)
    ensures LoopsAfterEnd(lines, loops, Some(prev), frame, l) == loops[..|loops| - 1]
    ensures IsEndMarker(lines, loops, prev, e)
    ensures EndsWith(lines, loops, prev, frame, l, loops[|loops| - 1].lineno, e)
  {
    var n := |loops| - 1;
    assert EndsTop(lines, loops[n], l);
    hide IsBehind, LoopsOk, InBody;
    e := EndLoop(Iters(if LeftByBreak(lines, prev) then Counted(loops) else loops), Ids(loops));
    assert IsEndMarker(lines, loops, prev, e) by { NumbersOfMarker(lines, loops, prev, e); }
    hide Iters, Ids, Counted, IsEndMarker;
  }

  lemma NumbersOfMarker(lines: seq<Line>, loops: seq<LoopInfo>, prev: Entry, e: Entry)
    requires LastOk(lines, Some(prev)) && |loops| > 0
    requires e == EndLoop(Iters(if LeftByBreak(lines, prev) then Counted(loops) else loops), Ids(loops))
    ensures IsEndMarker(lines, loops, prev, e)
  {
  }

  /** After a return statement of the function whose loop is innermost, all loops end. */
  lemma ReturnEndsAll(lines: seq<Line>, loops: seq<LoopInfo>, prev: Entry, frame: Frame, l: nat)
    requires l < |lines| && LastOk(lines, Some(prev)) && |loops| > 0
    requires ReturnTraced(lines, prev, frame) && loops[|loops| - 1].frame.id == frame.id
    ensures LoopsAfterEnd(lines, loops, Some(prev), frame, l) == []
  {
  }

  /** They end innermost first, each after one more iteration, and each line gets the markers of those around it. */
  lemma ReturnMarksAll(lines: seq<Line>, loops: seq<LoopInfo>, prev: Entry, frame: Frame, l: nat, m: nat)
    requires l < |lines| && LastOk(lines, Some(prev)) && |loops| > 0
    requires ReturnTraced(lines, prev, frame) && loops[|loops| - 1].frame.id == frame.id
    ensures EndMarkers(lines, loops, Some(prev), frame, l, m) == ClosingMarkers(lines, loops, m)
    ensures ClosingMarkers(lines, [], m) == []
    ensures InBody(lines, loops[|loops| - 1].lineno, m) ==>
      exists e :: IsClosingMarker(loops, e)
        && ClosingMarkers(lines, loops, m) == [e] + ClosingMarkers(lines, loops[..|loops| - 1], m)
    ensures !InBody(lines, loops[|loops| - 1].lineno, m) ==>
      ClosingMarkers(lines, loops, m) == ClosingMarkers(lines, loops[..|loops| - 1], m)
  {
    var e := EndLoop(Iters(Counted(loops)), Ids(loops));
    assert IsClosingMarker(loops, e);
  }

  ghost predicate IsClosingMarker(loops: seq<LoopInfo>, e: Entry)
    requires |loops| > 0
  {
    var n := |loops| - 1;
    && e.EndLoop? && |e.iters| == |loops| == |e.ids|
    && (forall i :: 0 <= i <= n ==> e.ids[i] == loops[i].lineno)
    && (forall i :: 0 <= i < n ==> e.iters[i] == loops[i].iter)
    && e.iters[n] == loops[n].iter + 1
  }

  /** No event of another frame ends a loop. */
  lemma OthersEndNothing(lines: seq<Line>, loops: seq<LoopInfo>, prev: Entry, frame: Frame, l: nat)
    requires l < |lines| && LastOk(lines, Some(prev)) && |loops| > 0 && loops[|loops| - 1].frame.id != frame.id
    ensures LoopsAfterEnd(lines, loops, Some(prev), frame, l) == loops
    ensures forall m: nat :: EndMarkers(lines, loops, Some(prev), frame, l, m) == []
  {
  }

  // ---------- iterations ----------

  /** The active loops when event number i has ended loops, and has not yet begun one. */
  ghost function Between(lines: seq<Line>, events: seq<Event>, i: nat): seq<LoopInfo>
    requires EventsOk(lines, events) && i < |events|
  {
    var p := After(lines, events[..i]);
    match events[i]
    case LineReached(frame, lineno) => LoopsAfterEnd(lines, p.loops, Last(p.history), frame, lineno)
    case Returned(frame, lineno, _) => Step(lines, p, events[i]).loops
  }

  /** With event number b a loop has begun inside of d others. */
  ghost predicate BeginsLoop(lines: seq<Line>, events: seq<Event>, b: nat, d: nat)
    requires EventsOk(lines, events)
  {
    b < |events| && |Between(lines, events, b)| == d && |After(lines, events[..b + 1]).loops| == d + 1
  }

  /** It has been active ever since. */
  ghost predicate Lasts(lines: seq<Line>, events: seq<Event>, b: nat, d: nat)
    requires EventsOk(lines, events)
  {
    forall i: nat :: b < i < |events| ==> |Between(lines, events, i)| > d
  }

  /** How often, from event number b on, line n has been reached as the header of the innermost of d + 1 loops. */
  ghost function Visits(lines: seq<Line>, events: seq<Event>, b: nat, d: nat, n: nat): nat
    requires EventsOk(lines, events)
  {
    if |events| <= b then 0
    else
      var last := |events| - 1;
      Visits(lines, events[..last], b, d, n)
      + if events[last].LineReached? && events[last].lineno == n && |After(lines, events).loops| == d + 1 then 1 else 0
  }

  /** A snapshot shows the lines and the counters of these loops. */
  ghost predicate ShowsLoops(e: Entry, loops: seq<LoopInfo>) {
    && e.Snapshot? && |e.ids| == |e.iters| == |loops|
    && forall i :: 0 <= i < |loops| ==> e.ids[i] == loops[i].lineno && e.iters[i] == loops[i].iter
  }

  /** The loops that a snapshot shows: ended ones are gone, and the loop that begins at its line is not there yet. */
  ghost function Shown(lines: seq<Line>, events: seq<Event>, t: nat): seq<LoopInfo>
    requires EventsOk(lines, events) && t < |events|
  {
    if events[t].Returned? then After(lines, events[..t]).loops else Between(lines, events, t)
  }

  lemma {:induction false} SnapshotShowsLoops(lines: seq<Line>, events: seq<Event>, t: nat)
    requires EventsOk(lines, events) && t < |events| == |After(lines, events).history|
    ensures ShowsLoops(After(lines, events).history[t], Shown(lines, events, t))
  {
    hide After, Shown, ShowsLoops;
    var last := |events| - 1;
    var e := LastSnapshot(lines, events);
    if t == last {
    } else {
      SnapshotShowsLoops(lines, events[..last], t);
      SameShown(lines, events, last, t);
    }
  }

  lemma SameShown(lines: seq<Line>, events: seq<Event>, n: nat, t: nat)
    requires EventsOk(lines, events) && t < n <= |events|
    ensures Shown(lines, events[..n], t) == Shown(lines, events, t)
  {
    hide After, Between;
    SameBetween(lines, events, n, t);
    assert events[..n][..t] == events[..t];
  }

  lemma LastSnapshot(lines: seq<Line>, events: seq<Event>) returns (e: Entry)
    requires EventsOk(lines, events) && |events| > 0
    ensures After(lines, events).history == After(lines, events[..|events| - 1]).history + [e]
    ensures ShowsLoops(e, Shown(lines, events, |events| - 1))
  {
    var p := After(lines, events[..|events| - 1]);
    e := Step(lines, p, events[|events| - 1]).history[|p.history|];
  }

  lemma SameBetween(lines: seq<Line>, events: seq<Event>, n: nat, i: nat)
    requires EventsOk(lines, events) && i < n <= |events|
    ensures Between(lines, events[..n], i) == Between(lines, events, i)
    ensures After(lines, events[..n][..i + 1]) == After(lines, events[..i + 1])
  {
    assert events[..n][..i] == events[..i] && events[..n][..i + 1] == events[..i + 1];
  }

  /** Ending loops leaves the outer ones as they are; what an event begins is at most one loop. */
  lemma EventSteps(lines: seq<Line>, events: seq<Event>)
    requires EventsOk(lines, events) && |events| > 0
    ensures var last := |events| - 1;
      && Between(lines, events, last) <= After(lines, events[..last]).loops
      && After(lines, events).loops ==
           if events[last].Returned? then Between(lines, events, last)
           else LoopsAfterBegin(lines, Between(lines, events, last), events[last].frame, events[last].lineno)
  {
    var p, last := After(lines, events[..|events| - 1]), |events| - 1;
    assert After(lines, events) == Step(lines, p, events[last]);
    hide After;
    match events[last]
    case LineReached(frame, lineno) => EndKeepsOuter(lines, p.loops, Last(p.history), frame, lineno);
    case Returned(frame, lineno, exception) =>
      var e := Taken(p.loops, |p.history|, frame, ReturnAt(lineno), exception);
      EndKeepsOuter(lines, p.loops, Some(e), frame, lineno);
  }

  lemma EndKeepsOuter(lines: seq<Line>, loops: seq<LoopInfo>, prev: Option<Entry>, frame: Frame, l: nat)
    requires l < |lines| && LastOk(lines, prev)
    ensures LoopsAfterEnd(lines, loops, prev, frame, l) <= loops
  {
  }

  /** The counter of an active loop is how often its header has been reached since the loop began. */
  lemma {:induction false} IterationsAreVisits(lines: seq<Line>, events: seq<Event>, b: nat, d: nat)
    requires EventsOk(lines, events) && BeginsLoop(lines, events, b, d) && Lasts(lines, events, b, d)
    ensures |After(lines, events).loops| > d
    ensures var loop := After(lines, events).loops[d];
      && loop.lineno == events[b].lineno && loop.frame == events[b].frame
      && loop.iter == Visits(lines, events, b + 1, d, events[b].lineno)
    ensures lines[events[b].lineno].Code? && lines[events[b].lineno].isLoop
  {
    hide LoopsAfterBegin, Between, After, Lasts, Visits, Step;
    var last := |events| - 1;
    EventSteps(lines, events);
    if b == last {
      assert events[..b + 1] == events;
      NoVisits(lines, events, b + 1, d, events[b].lineno);
      LoopIsNew(lines, Between(lines, events, last), events[last], After(lines, events).loops);
    } else {
      ShorterLife(lines, events, b, d);
      IterationsAreVisits(lines, events[..last], b, d);
      LastVisit(lines, events, b + 1, d, events[b].lineno);
      LoopIsCounted(lines, After(lines, events[..last]).loops, Between(lines, events, last), events[last],
        After(lines, events).loops, d);
    }
  }

  lemma NoVisits(lines: seq<Line>, events: seq<Event>, b: nat, d: nat, n: nat)
    requires EventsOk(lines, events) && |events| <= b
    ensures Visits(lines, events, b, d, n) == 0
  {
  }

  lemma LastVisit(lines: seq<Line>, events: seq<Event>, b: nat, d: nat, n: nat)
    requires EventsOk(lines, events) && |events| > b
    ensures var last := |events| - 1;
      Visits(lines, events, b, d, n) == Visits(lines, events[..last], b, d, n) +
        if events[last].LineReached? && events[last].lineno == n && |After(lines, events).loops| == d + 1 then 1 else 0
  {
    hide After;
  }

  lemma LoopIsNew(lines: seq<Line>, between: seq<LoopInfo>, event: Event, after: seq<LoopInfo>)
    requires event.lineno < |lines| && |after| == |between| + 1
    requires after == if event.Returned? then between else LoopsAfterBegin(lines, between, event.frame, event.lineno)
    ensures lines[event.lineno].Code? && lines[event.lineno].isLoop
    ensures after[|between|] == LoopInfo(event.frame, event.lineno, lines[event.lineno].indent, 0)
  {
  }

  lemma LoopIsCounted(lines: seq<Line>, before: seq<LoopInfo>, between: seq<LoopInfo>, event: Event,
      after: seq<LoopInfo>, d: nat)
    requires event.lineno < |lines| && between <= before && |between| > d
    requires after == if event.Returned? then between else LoopsAfterBegin(lines, between, event.frame, event.lineno)
    requires var n := before[d].lineno; n < |lines| && lines[n].Code? && lines[n].isLoop
    ensures |after| > d && after[d].lineno == before[d].lineno && after[d].frame == before[d].frame
    ensures after[d].iter == before[d].iter
      + if event.LineReached? && event.lineno == before[d].lineno && |after| == d + 1 then 1 else 0
  {
    assert between[d] == before[d];
  }

  lemma ShorterLife(lines: seq<Line>, events: seq<Event>, b: nat, d: nat)
    requires EventsOk(lines, events) && b < |events| - 1
    requires BeginsLoop(lines, events, b, d) && Lasts(lines, events, b, d)
    ensures BeginsLoop(lines, events[..|events| - 1], b, d) && Lasts(lines, events[..|events| - 1], b, d)
    ensures |Between(lines, events, |events| - 1)| > d
  {
    hide Between, After;
    var last := |events| - 1;
    SameBetween(lines, events, last, b);
    forall i: nat | b < i < last ensures |Between(lines, events[..last], i)| > d {
      SameBetween(lines, events, last, i);
    }
  }

  /** Every active loop has begun with some event. */
  lemma {:induction false} EveryLoopBegan(lines: seq<Line>, events: seq<Event>, d: nat) returns (b: nat)
    requires EventsOk(lines, events) && d < |After(lines, events).loops|
    ensures BeginsLoop(lines, events, b, d) && Lasts(lines, events, b, d)
  {
    var last := |events| - 1;
    SomethingHappened(lines, events);
    EventSteps(lines, events);
    hide LoopsAfterEnd, Between, After, Step, Lasts;
    if |Between(lines, events, last)| <= d {
      b := last;
      assert events[..b + 1] == events;
      assert Lasts(lines, events, b, d) by { NothingSince(lines, events, d); }
    } else {
      b := EveryLoopBegan(lines, events[..last], d);
      LongerLife(lines, events, b, d);
    }
  }

  lemma SomethingHappened(lines: seq<Line>, events: seq<Event>)
    requires EventsOk(lines, events) && |After(lines, events).loops| > 0
    ensures |events| > 0
  {
  }

  lemma NothingSince(lines: seq<Line>, events: seq<Event>, d: nat)
    requires EventsOk(lines, events) && |events| > 0
    ensures Lasts(lines, events, |events| - 1, d)
  {
  }

  lemma LongerLife(lines: seq<Line>, events: seq<Event>, b: nat, d: nat)
    requires EventsOk(lines, events) && |events| > 0 && |Between(lines, events, |events| - 1)| > d
    requires BeginsLoop(lines, events[..|events| - 1], b, d) && Lasts(lines, events[..|events| - 1], b, d)
    ensures BeginsLoop(lines, events, b, d) && Lasts(lines, events, b, d)
  {
    hide Between, After;
    var last := |events| - 1;
    SameBetween(lines, events, last, b);
    forall i: nat | b < i < |events| ensures |Between(lines, events, i)| > d {
      if i < last {
        SameBetween(lines, events, last, i);
        assert |Between(lines, events[..last], i)| > d;
      }
    }
  }

  lemma {:induction false} LoopsStayOk(lines: seq<Line>, events: seq<Event>)
    requires EventsOk(lines, events)
    ensures LoopsOk(lines, After(lines, events).loops)
  {
    if |events| == 0 {
    } else {
      LoopsStayOk(lines, events[..|events| - 1]);
      EventSteps(lines, events);
      hide After, Between;
    }
  }

  /** The end marker of the loop that began with event number b. */
  ghost predicate CountsVisits(lines: seq<Line>, events: seq<Event>, b: nat, e: Entry)
    requires EventsOk(lines, events) && 0 < |events| == |After(lines, events).history| && b < |events|
  {
    var p := After(lines, events);
    var prev := p.history[|events| - 1];
    && e.EndLoop? && |e.iters| == |p.loops| == |e.ids| > 0
    && e.ids[|e.ids| - 1] == events[b].lineno
    && e.iters[|e.iters| - 1] == Visits(lines, events, b + 1, |p.loops| - 1, events[b].lineno)
         + if lines[prev.key.line].Code? && lines[prev.key.line].isBreak then 1 else 0
  }

  /**
   In any run: where control goes behind the body of the innermost loop of its frame, each line of the body gets one end
   marker, which counts how often the header has been reached since the loop began, and one more after a break.
   */
  lemma LoopEndCounts(lines: seq<Line>, events: seq<Event>, frame: Frame, l: nat, b: nat) returns (e: Entry)
    requires EventsOk(lines, events) && l < |lines| && b < |events| == |After(lines, events).history|
    requires var p := After(lines, events);
      && |p.loops| > 0 && BeginsLoop(lines, events, b, |p.loops| - 1) && Lasts(lines, events, b, |p.loops| - 1)
      && events[b].frame.id == frame.id && IsBehind(lines, events[b].lineno, l)
      && !ReturnTraced(lines, p.history[|events| - 1], frame)
    ensures CountsVisits(lines, events, b, e)
    ensures var p := After(lines, events);
      && EndsWith(lines, p.loops, p.history[|events| - 1], frame, l, events[b].lineno, e)
      && LoopsAfterEnd(lines, p.loops, Last(p.history), frame, l) == p.loops[..|p.loops| - 1]
  {
    hide After, EndsWith, EndMarkers, LoopsAfterEnd, IsBehind, InBody, BeginsLoop, Lasts, ReturnTraced, Visits, LoopsOk;
    hide IsEndMarker;
    var p := After(lines, events);
    LoopsStayOk(lines, events);
    IterationsAreVisits(lines, events, b, |p.loops| - 1);
    e := EndsBehindBody(lines, p.loops, p.history[|events| - 1], frame, l);
    LastNumbers(lines, p.loops, p.history[|events| - 1], e);
  }

  lemma LastNumbers(lines: seq<Line>, loops: seq<LoopInfo>, prev: Entry, e: Entry)
    requires prev.Snapshot? && prev.key.line < |lines| && |loops| > 0 && IsEndMarker(lines, loops, prev, e)
    ensures var n := |loops| - 1;
      && e.EndLoop? && |e.iters| == |loops| == |e.ids| && e.ids[n] == loops[n].lineno
      && e.iters[n] == loops[n].iter + if lines[prev.key.line].Code? && lines[prev.key.line].isBreak then 1 else 0
  {
  }
}
