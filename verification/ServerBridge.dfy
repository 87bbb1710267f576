/** The task that pumps bytes between a message queue and a named pipe (cli/src/tunnels/server_bridge_windows.rs). */
module ServerBridge {
  import opened Basics

  type Bytes = seq<bv8>

  /** What the pipe reports when it is waited for. */
  datatype Ready = Ready(readable: bool, writable: bool)

  /** Outcome of one attempt to read or write. */
  datatype ReadOutcome = Received(data: Bytes) | ReadWouldBlock | ReadFailed
  datatype WriteOutcome = Written(n: nat) | WriteWouldBlock | WriteFailed

  /**
   The points at which the task lets others run: it chooses between queue and pipe, polls the pipe, or passes on what it
   has read and may then write.
   */
  datatype Phase = Choosing | Polling | Passing(data: Bytes, writable: bool) | Stopped

  /** What the task meets when it goes on; which parts matter depends on where it is. */
  datatype Answer = Answer(
    pipeFirst: bool,
    ready: Option<Ready>,
    read: ReadOutcome,
    targetClosed: bool,
    write: WriteOutcome)

  /** What happens at any moment: a writer hands over a message, the writers hang up, the task goes on. */
  datatype Event = Send(message: Bytes) | Close | GoOn(answer: Answer)

  /** The whole state, with what has been accepted from the writers and read from the pipe. */
  datatype Pump = Pump(
    phase: Phase,
    queue: seq<Bytes>,
    closed: bool,
    pending: Option<Bytes>,
    written: Bytes,
    forwarded: Bytes,
    accepted: seq<Bytes>,
    received: Bytes)

  const QUEUE_LIMIT: nat := 4

  function Concat(messages: seq<Bytes>): Bytes {
    if |messages| == 0 then [] else messages[0] + Concat(messages[1..])
  }

  lemma {:induction false} ConcatAppend(messages: seq<Bytes>, m: Bytes)
    ensures Concat(messages + [m]) == Concat(messages) + m
  {
    if |messages| == 0 {
      assert [m] == messages + [m] && Concat([m]) == m + [];
    } else {
      assert (messages + [m])[1..] == messages[1..] + [m];
      ConcatAppend(messages[1..], m);
    }
  }

  function OrEmpty(m: Option<Bytes>): Bytes {
    if m.Some? then m.value else []
  }

  // ---------- what one event does ----------

  const FRESH: Pump := Pump(Choosing, [], false, None, [], [], [], [])

  /** A full queue makes the writer wait; a message for a task that is gone is dropped. */
  function AfterSend(p: Pump, message: Bytes): Pump {
    if p.phase != Stopped && !p.closed && |p.queue| < QUEUE_LIMIT then
      p.(queue := p.queue + [message], accepted := p.accepted + [message])
    else p
  }

  /** The loop starts over. */
  function AtTop(p: Pump): Pump {
    p.(phase := if p.pending.Some? then Polling else Choosing)
  }

  /** The pipe takes some bytes of the pending message, and never more than there are. */
  function AfterWrite(p: Pump, writable: bool, write: WriteOutcome): Pump {
    if p.pending.None? || !writable then AtTop(p)
    else
      match write
      case WriteWouldBlock => AtTop(p)
      case WriteFailed => p.(phase := Stopped)
      case Written(n) =>
        var m := p.pending.value;
        var k := Least(n, |m|);
        AtTop(p.(written := p.written + m[..k], pending := if k == |m| then None else Some(m[k..])))
  }

  function AfterPoll(p: Pump, ready: Option<Ready>, read: ReadOutcome, write: WriteOutcome): Pump {
    if ready.None? then p.(phase := Stopped)
    else if !ready.value.readable then AfterWrite(p, ready.value.writable, write)
    else
      match read
      case ReadWouldBlock => AtTop(p)
      case ReadFailed => p.(phase := Stopped)
      case Received(data) =>
        if data == [] then p.(phase := Stopped)
        else p.(phase := Passing(data, ready.value.writable), received := p.received + data)
  }

  function AfterGoOn(p: Pump, a: Answer): Pump {
    match p.phase
    case Stopped => p
    case Choosing =>
      if a.pipeFirst then AfterPoll(p, a.ready, a.read, a.write)
      else if |p.queue| > 0 then p.(phase := Polling, pending := Some(p.queue[0]), queue := p.queue[1..])
      else if p.closed then p.(phase := Stopped)
      else p
    case Polling => AfterPoll(p, a.ready, a.read, a.write)
    case Passing(data, writable) =>
      if a.targetClosed then p.(phase := Stopped)
      else AfterWrite(p.(forwarded := p.forwarded + data), writable, a.write)
  }

  function Step(p: Pump, event: Event): Pump {
    match event
    case Send(message) => AfterSend(p, message)
    case Close => p.(closed := true)
    case GoOn(answer) => AfterGoOn(p, answer)
  }

  /** Any interleaving of writers and task. */
  function After(p: Pump, events: seq<Event>): Pump {
    if |events| == 0 then p else Step(After(p, events[..|events| - 1]), events[|events| - 1])
  }

  // ---------- no byte is lost, doubled or out of order ----------

  ghost predicate Balanced(p: Pump) {
    && p.written + OrEmpty(p.pending) + Concat(p.queue) == Concat(p.accepted)
    && |p.queue| <= QUEUE_LIMIT
  }

  ghost predicate Conserved(p: Pump) {
    && Balanced(p)
    && (p.phase == Choosing ==> p.pending.None?)
    && (p.phase == Polling ==> p.pending.Some?)
    && (if p.phase.Passing? then p.forwarded + p.phase.data == p.received
        else if p.phase != Stopped then p.forwarded == p.received
        else p.forwarded <= p.received)
  }

  lemma SendConserves(p: Pump, message: Bytes)
    requires Conserved(p)
    ensures Conserved(AfterSend(p, message))
  {
    ConcatAppend(p.accepted, message);
    ConcatAppend(p.queue, message);
    MoveBracket(p.written + OrEmpty(p.pending), Concat(p.queue), message);
  }

  lemma WriteConserves(p: Pump, writable: bool, write: WriteOutcome)
    requires Balanced(p) && p.forwarded == p.received
    ensures Conserved(AfterWrite(p, writable, write))
    ensures var after := AfterWrite(p, writable, write);
      && p.written <= after.written && after.forwarded == p.forwarded && after.received == p.received
      && after.queue == p.queue && after.accepted == p.accepted && after.closed == p.closed
  {
    if p.pending.Some? && writable && write.Written? {
      var m := p.pending.value;
      var k := Least(write.n, |m|);
      assert m == m[..k] + m[k..];
      MoveBracket(p.written, m[..k], m[k..]);
      assert (p.written + m[..k]) + [] == p.written + m[..k];
    }
  }

  lemma PollConserves(p: Pump, ready: Option<Ready>, read: ReadOutcome, write: WriteOutcome)
    requires Conserved(p) && (p.phase == Choosing || p.phase == Polling)
    ensures Conserved(AfterPoll(p, ready, read, write))
    ensures p.written <= AfterPoll(p, ready, read, write).written
    ensures p.forwarded == AfterPoll(p, ready, read, write).forwarded
    ensures p.accepted == AfterPoll(p, ready, read, write).accepted
  {
    WriteConserves(p, ready.Some? && ready.value.writable, write);
  }

  lemma GoOnConserves(p: Pump, a: Answer)
    requires Conserved(p)
    ensures Conserved(AfterGoOn(p, a))
    ensures p.written <= AfterGoOn(p, a).written && p.forwarded <= AfterGoOn(p, a).forwarded
    ensures p.accepted == AfterGoOn(p, a).accepted
  {
    hide Concat, AfterPoll, AfterWrite;
    match p.phase
    case Stopped =>
    case Choosing =>
      PollConserves(p, a.ready, a.read, a.write);
      if |p.queue| > 0 {
        QueueHead(p.queue);
        assert p.written + [] == p.written;
        MoveBracket(p.written, p.queue[0], Concat(p.queue[1..]));
      }
    case Polling => PollConserves(p, a.ready, a.read, a.write);
    case Passing(data, writable) =>
      WriteConserves(p.(forwarded := p.forwarded + data), writable, a.write);
  }

  lemma QueueHead(queue: seq<Bytes>)
    requires |queue| > 0
    ensures Concat(queue) == queue[0] + Concat(queue[1..])
  {
  }

  /** A step never takes back what has been written or passed on, and accepts at most the message it is given. */
  lemma StepConserves(p: Pump, event: Event)
    requires Conserved(p)
    ensures Conserved(Step(p, event))
    ensures p.written <= Step(p, event).written && p.forwarded <= Step(p, event).forwarded
    ensures p.accepted <= Step(p, event).accepted
  {
    hide Concat, AfterGoOn;
    match event
    case Send(message) => SendConserves(p, message);
    case Close =>
    case GoOn(answer) => GoOnConserves(p, answer);
  }

  /** In every interleaving, written, pending and queued bytes are the accepted messages, in order. */
  lemma {:induction false} RunConserves(events: seq<Event>)
    ensures Conserved(After(FRESH, events))
    ensures After(FRESH, events).written <= Concat(After(FRESH, events).accepted)
  {
    if |events| == 0 {
    } else {
      RunConserves(events[..|events| - 1]);
      StepConserves(After(FRESH, events[..|events| - 1]), events[|events| - 1]);
    }
    var p := After(FRESH, events);
    assert p.written + OrEmpty(p.pending) + Concat(p.queue) == p.written + (OrEmpty(p.pending) + Concat(p.queue));
  }

  // ---------- when the task stops ----------

  /** The pipe is asked, at once or after a message has been taken. */
  predicate AsksPipe(p: Pump, a: Answer) {
    p.phase == Polling || (p.phase == Choosing && a.pipeFirst)
  }

  /** There is something to write, the pipe says that it can take it, and then it fails. */
  predicate FailsToWrite(p: Pump, writable: bool, a: Answer) {
    p.pending.Some? && writable && a.write.WriteFailed?
  }

  /**
   The task stops exactly at the end of what can be read, at an error of the pipe, when nobody takes what it has read,
   and when the writers have hung up and nothing is queued; and then it has stopped for good.
   */
  lemma StopsExactly(p: Pump, a: Answer)
    ensures AfterGoOn(p, a).phase == Stopped <==>
      || p.phase == Stopped
      || (p.phase == Choosing && !a.pipeFirst && p.queue == [] && p.closed)
      || (p.phase.Passing? && (a.targetClosed || FailsToWrite(p, p.phase.writable, a)))
      || (AsksPipe(p, a) && a.ready.None?)
      || (AsksPipe(p, a) && a.ready.Some? && a.ready.value.readable && (a.read.ReadFailed? || a.read == Received([])))
      || (AsksPipe(p, a) && a.ready.Some? && !a.ready.value.readable && FailsToWrite(p, a.ready.value.writable, a))
    ensures p.phase == Stopped ==> AfterGoOn(p, a) == p
  {
  }

  /** What has been read is passed on, all of it and before anything else is read. */
  lemma ReadIsPassedOn(p: Pump, a: Answer, b: Answer)
    requires Conserved(p) && AsksPipe(p, a) && a.ready.Some? && a.ready.value.readable
    requires a.read.Received? && a.read.data != [] && !b.targetClosed
    ensures AfterGoOn(p, a).received == p.received + a.read.data
    ensures AfterGoOn(AfterGoOn(p, a), b).forwarded == p.received + a.read.data
  {
  }

  // ---------- everything accepted gets written ----------

  function QueueWork(queue: seq<Bytes>): nat {
    if |queue| == 0 then 0 else 2 + |queue[0]| + QueueWork(queue[1..])
  }

  /** How many rounds it takes at most until all is written, if the pipe takes a byte whenever it is asked. */
  function Work(p: Pump): nat {
    QueueWork(p.queue) + if p.pending.Some? then 1 + |p.pending.value| else 0
  }

  /** The pipe has nothing to read and takes at least one byte. */
  predicate Helpful(a: Answer) {
    !a.pipeFirst && a.ready == Some(Ready(false, true)) && a.write.Written? && a.write.n > 0
  }

  /** With a pipe that takes bytes the task never stops before its work is done, and each round leaves less of it. */
  lemma HelpfulRoundsDrain(p: Pump, a: Answer)
    requires Conserved(p) && (p.phase == Choosing || p.phase == Polling) && Helpful(a) && Work(p) > 0
    ensures var after := AfterGoOn(p, a);
      Work(after) < Work(p) && (after.phase == Choosing || after.phase == Polling) && after.accepted == p.accepted
  {
  }

  /** No work is left exactly when everything accepted has been written. */
  lemma DrainedIsWritten(p: Pump)
    requires Conserved(p) && Work(p) == 0
    ensures p.written == Concat(p.accepted)
  {
    assert p.written + [] + [] == p.written;
  }

  ghost predicate AllHelpful(events: seq<Event>) {
    forall i :: 0 <= i < |events| ==> events[i].GoOn? && Helpful(events[i].answer)
  }

  lemma {:induction false} AfterFirst(p: Pump, events: seq<Event>)
    requires |events| > 0
    ensures After(p, events) == After(Step(p, events[0]), events[1..])
  {
    var n := |events| - 1;
    if n == 0 {
      assert events[..n] == [] && events[1..] == [];
    } else {
      AfterFirst(p, events[..n]);
      assert events[..n][1..] == events[1..][..n - 1];
    }
  }

  /** With nothing left to write, further rounds write nothing, whether or not the task stops. */
  lemma {:induction false} DrainedStays(p: Pump, events: seq<Event>)
    requires Work(p) == 0 && (p.phase == Choosing || p.phase == Stopped) && AllHelpful(events)
    ensures After(p, events).written == p.written
    decreases |events|
  {
    if |events| == 0 {
    } else {
      AfterFirst(p, events);
      DrainedStays(Step(p, events[0]), events[1..]);
    }
  }

  /** With a pipe that takes a byte in every round, everything accepted gets written, in Work(p) rounds at most. */
  lemma {:induction false} HelpfulRunDrains(p: Pump, events: seq<Event>)
    requires Conserved(p) && (p.phase == Choosing || p.phase == Polling)
    requires AllHelpful(events) && |events| >= Work(p)
    ensures After(p, events).written == Concat(p.accepted)
    decreases |events|
  {
    if Work(p) == 0 {
      DrainedIsWritten(p);
      DrainedStays(p, events);
    } else {
      HelpfulRoundsDrain(p, events[0].answer);
      GoOnConserves(p, events[0].answer);
      AfterFirst(p, events);
      HelpfulRunDrains(Step(p, events[0]), events[1..]);
    }
  }

  // ---------- the task and its writers ----------

  class Bridge {
    var queue: seq<Bytes>
    var closed: bool
    var pending: Option<Bytes>
    var phase: Phase
    /** What has gone into the pipe, and what came out of it and was passed on. */
    var written: Bytes
    var forwarded: Bytes
    ghost var accepted: seq<Bytes>
    ghost var received: Bytes

    ghost function S(): Pump
      reads this
    {
      Pump(phase, queue, closed, pending, written, forwarded, accepted, received)
    }

    constructor ()
      ensures S() == FRESH
    {
      phase, queue, closed, pending := Choosing, [], false, None;
      written, forwarded, accepted, received := [], [], [], [];
    }

    /** A writer hands over a message; while it is not taken it has to wait, unless the task is gone. */
    method Write(b: Bytes) returns (taken: bool)
      modifies `queue, `accepted
      ensures S() == AfterSend(old(S()), b)
      ensures taken <==> phase != Stopped && !closed && |old(queue)| < QUEUE_LIMIT
    {
      taken := phase != Stopped && !closed && |queue| < QUEUE_LIMIT;
      if taken {
        queue := queue + [b];
        accepted := accepted + [b];
      }
    }

    method HangUp()
      modifies `closed
      ensures S() == old(S()).(closed := true)
    {
      closed := true;
    }

    /** The task runs until it has to wait again. */
    method Continue(a: Answer)
      modifies this
      ensures S() == AfterGoOn(old(S()), a)
    {
      hide AfterPoll, AfterWrite;
      match phase
      case Stopped =>
      case Choosing =>
        if a.pipeFirst {
          HandleReady(a.ready, a.read, a.write);
        } else if |queue| > 0 {
          phase, pending, queue := Polling, Some(queue[0]), queue[1..];
        } else if closed {
          phase := Stopped;
        }
      case Polling =>
        HandleReady(a.ready, a.read, a.write);
      case Passing(data, writable) =>
        if a.targetClosed {
          phase := Stopped;
        } else {
          forwarded := forwarded + data;
          WriteSome(writable, a.write);
        }
    }

    method HandleReady(ready: Option<Ready>, read: ReadOutcome, write: WriteOutcome)
      modifies this
      ensures S() == AfterPoll(old(S()), ready, read, write)
    {
      hide AfterWrite;
      if ready.None? {
        phase := Stopped;
      } else if ready.value.readable {
        match read
        case ReadWouldBlock => StartOver();
        case ReadFailed => phase := Stopped;
        case Received(data) =>
          if |data| == 0 {
            phase := Stopped;
          } else {
            phase := Passing(data, ready.value.writable);
            received := received + data;
          }
      } else {
        WriteSome(ready.value.writable, write);
      }
    }

    method WriteSome(writable: bool, write: WriteOutcome)
      modifies `phase, `pending, `written
      ensures S() == AfterWrite(old(S()), writable, write)
    {
      if pending.Some? && writable {
        match write
        case WriteWouldBlock =>
        case WriteFailed =>
          phase := Stopped;
          return;
        case Written(n) =>
          var m := pending.value;
          var k := Least(n, |m|);
          written := written + m[..k];
          pending := if k == |m| then None else Some(m[k..]);
      }
      StartOver();
    }

    method StartOver()
      modifies `phase
      ensures S() == AtTop(old(S()))
    {
      phase := if pending.Some? then Polling else Choosing;
    }

    method Happen(event: Event)
      modifies this
      ensures S() == Step(old(S()), event)
    {
      match event {
        case Send(message) => var taken := Write(message);
        case Close => HangUp();
        case GoOn(answer) => Continue(answer);
      }
    }
  }

  /** Any interleaving: the bridge ends up where the events lead, with all accepted bytes in place. */
  method Run(events: seq<Event>) returns (bridge: Bridge)
    ensures fresh(bridge) && bridge.S() == After(FRESH, events) && Conserved(bridge.S())
    ensures bridge.written + OrEmpty(bridge.pending) + Concat(bridge.queue) == Concat(bridge.accepted)
    ensures bridge.written <= Concat(bridge.accepted)
  {
    hide Step;
    bridge := new Bridge();
    var i := 0;
    while i < |events|
      invariant 0 <= i <= |events| && fresh(bridge) && bridge.S() == After(FRESH, events[..i])
    {
      assert events[..i + 1][..i] == events[..i];
      bridge.Happen(events[i]);
      i := i + 1;
    }
    assert events[..i] == events;
    hide After;
    RunConserves(events);
  }
}
