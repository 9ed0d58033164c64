/**
 The ingest client: the dispatcher between the UDP listener and the current connection, and the loop that numbers and
 writes events. Events take their numbers from one counter of the process, everything else from the connection's own.
 */
module RelayClient {
  import opened Basics
  import opened Protocol
  import opened Sessions
  import EndToEnd

  // ---------------------------------------------------------------- one connection, as a value

  /** `broken` says that a write has failed: on a websocket all later ones fail too. */
  datatype Line = Line(
    sourceSeq: uint64, counter: uint64, queue: seq<Message>, wire: seq<Written>, broken: bool, running: bool)

  /** What the select statement of runConnected may pick, and what the listener and readLoop may do in between. */
  datatype Turn =
    | Tick(text: string, expired: bool, writes: bool)  // the ticker; `expired` says the server was silent too long
    | Take(writes: bool)                               // the next event of the channel
    | Arrive(body: Message)                            // the listener publishes an event
    | Answer(text: string, writes: bool)               // readLoop answers a ping
    | Quit                                             // context cancelled or read error

  /** writeEnvelope: an envelope without a number takes the connection's next one. */
  function Write(line: Line, number: uint64, body: Message, writes: bool): Line {
    var counter := if number == 0 then Increment(line.counter) else line.counter;
    var given := if number == 0 then counter else number;
    if writes && !line.broken then line.(counter := counter, wire := line.wire + [Written(given, body)])
    else line.(counter := counter, broken := true)
  }

  /** A failed write of the loop itself ends it. */
  function StopIfBroken(line: Line): Line {
    line.(running := line.running && !line.broken)
  }

  function Step(line: Line, turn: Turn): Line {
    match turn
    case Arrive(body) =>
      if |line.queue| < EndToEnd.EVENT_QUEUE then line.(queue := line.queue + [body]) else line
    case Quit => line.(running := false)
    case Answer(text, writes) => Write(line, 0, Control(text), writes)
    case Tick(text, expired, writes) =>
      if expired then line.(running := false) else StopIfBroken(Write(line, 0, Control(text), writes))
    case Take(writes) =>
      if line.queue == [] then line
      else
        var number := Increment(line.sourceSeq);
        StopIfBroken(Write(line.(sourceSeq := number, queue := line.queue[1..]), number, line.queue[0], writes))
  }

  /** The loop ends with the turn that stops it. */
  function Steps(line: Line, turns: seq<Turn>): Line
    decreases |turns|
  {
    if turns == [] || !line.running then line else Steps(Step(line, turns[0]), turns[1..])
  }

  /** Live events as against pings and pongs. */
  function Events(wire: seq<Written>): seq<Written> {
    if wire == [] then []
    else Events(wire[..|wire| - 1]) + (if wire[|wire| - 1].body.Event? then [wire[|wire| - 1]] else [])
  }

  function Others(wire: seq<Written>): seq<Written> {
    if wire == [] then []
    else Others(wire[..|wire| - 1]) + (if wire[|wire| - 1].body.Event? then [] else [wire[|wire| - 1]])
  }

  function BodiesIn(wire: seq<Written>): (bodies: seq<Message>)
    ensures |bodies| == |wire|
  {
    seq(|wire|, i requires 0 <= i < |wire| => wire[i].body)
  }

  lemma Snoc(wire: seq<Written>, w: Written)
    ensures Events(wire + [w]) == if w.body.Event? then Events(wire) + [w] else Events(wire)
    ensures Others(wire + [w]) == if w.body.Event? then Others(wire) else Others(wire) + [w]
    ensures BodiesIn(Events(wire + [w])) == BodiesIn(Events(wire)) + (if w.body.Event? then [w.body] else [])
  {
    assert (wire + [w])[..|wire|] == wire;
  }

  ghost predicate OnlyEvents(bodies: seq<Message>) {
    forall i :: 0 <= i < |bodies| ==> bodies[i].Event?
  }

  ghost predicate ArrivalsAreEvents(turns: seq<Turn>) {
    forall i :: 0 <= i < |turns| && turns[i].Arrive? ==> turns[i].body.Event?
  }

  /** The event that finds room in the channel in this turn. */
  function Entering(line: Line, turn: Turn): seq<Message> {
    if turn.Arrive? && |line.queue| < EndToEnd.EVENT_QUEUE then [turn.body] else []
  }

  /** The event whose write fails in this turn. */
  function Losing(line: Line, turn: Turn): seq<Message> {
    if turn.Take? && line.queue != [] && (line.broken || !turn.writes) then [line.queue[0]] else []
  }

  function Entered(line: Line, turns: seq<Turn>): seq<Message>
    decreases |turns|
  {
    if turns == [] || !line.running then []
    else Entering(line, turns[0]) + Entered(Step(line, turns[0]), turns[1..])
  }

  function Lost(line: Line, turns: seq<Turn>): seq<Message>
    decreases |turns|
  {
    if turns == [] || !line.running then []
    else Losing(line, turns[0]) + Lost(Step(line, turns[0]), turns[1..])
  }

  lemma WriteAppends(line: Line, number: uint64, body: Message, writes: bool)
    ensures var given := if number == 0 then Increment(line.counter) else number;
            var after := Write(line, number, body, writes);
            var ok := writes && !line.broken;
            && Events(after.wire) == Events(line.wire) + (if ok && body.Event? then [Written(given, body)] else [])
            && Others(after.wire) == Others(line.wire) + (if ok && !body.Event? then [Written(given, body)] else [])
            && BodiesIn(Events(after.wire)) == BodiesIn(Events(line.wire)) + (if ok && body.Event? then [body] else [])
  {
    Snoc(line.wire, Written(if number == 0 then Increment(line.counter) else number, body));
  }

  /** A turn neither loses nor invents events. */
  ghost predicate Conserves(line: Line, turn: Turn) {
    && OnlyEvents(Step(line, turn).queue)
    && BodiesIn(Events(line.wire)) + line.queue + Entering(line, turn)
       == BodiesIn(Events(Step(line, turn).wire)) + Losing(line, turn) + Step(line, turn).queue
    && (Losing(line, turn) != [] ==> |Losing(line, turn)| == 1 && !Step(line, turn).running)
  }

  /** One event moves from the front of a sequence behind another one. */
  lemma Shift<T>(written: seq<T>, queue: seq<T>, ok: bool)
    requires queue != []
    ensures written + queue + [] ==
            (written + (if ok then [queue[0]] else [])) + (if ok then [] else [queue[0]]) + queue[1..]
  {
    assert queue == [queue[0]] + queue[1..];
  }

  lemma TakeConserves(line: Line, writes: bool)
    requires line.running && OnlyEvents(line.queue) && line.queue != []
    ensures Conserves(line, Take(writes))
  {
    var number := Increment(line.sourceSeq);
    WriteAppends(line.(sourceSeq := number, queue := line.queue[1..]), number, line.queue[0], writes);
    Shift(BodiesIn(Events(line.wire)), line.queue, writes && !line.broken);
    hide Events, Others, BodiesIn, Increment;
  }

  lemma ControlConserves(line: Line, turn: Turn)
    requires line.running && OnlyEvents(line.queue) && (turn.Tick? || turn.Answer?)
    ensures Conserves(line, turn)
  {
    WriteAppends(line, 0, Control(turn.text), turn.writes);
    hide Events, Others, BodiesIn, Increment;
    assert BodiesIn(Events(line.wire)) + [] == BodiesIn(Events(line.wire));
  }

  lemma StepConserves(line: Line, turn: Turn)
    requires line.running && OnlyEvents(line.queue) && (turn.Arrive? ==> turn.body.Event?)
    ensures OnlyEvents(Step(line, turn).queue)
    ensures BodiesIn(Events(line.wire)) + line.queue + Entering(line, turn)
            == BodiesIn(Events(Step(line, turn).wire)) + Losing(line, turn) + Step(line, turn).queue
    ensures Losing(line, turn) != [] ==> |Losing(line, turn)| == 1 && !Step(line, turn).running
  {
    hide Events, Others, BodiesIn, Write;
    if turn.Take? && line.queue != [] {
      TakeConserves(line, turn.writes);
    } else if turn.Tick? || turn.Answer? {
      ControlConserves(line, turn);
    } else {
      assert Conserves(line, turn);
    }
  }

  lemma Regroup<T>(before: seq<T>, entering: seq<T>, entered: seq<T>, written: seq<T>, losing: seq<T>, queue: seq<T>,
                   lost: seq<T>)
    requires before + entering == written + losing + queue
    requires losing != [] ==> entered == [] && lost == []
    ensures before + (entering + entered) == (written + losing + queue) + entered
    ensures losing == [] ==> written + losing + queue == written + queue && losing + lost == lost
    ensures losing != [] ==> losing + lost == losing
  {}

  /**
   Conservation on one connection: what was queued or got into the channel is on the wire, in order, then at most one
   event lost with the write that ended the connection, then what is still queued.
   */
  lemma {:induction false} EventsAreConserved(line: Line, turns: seq<Turn>)
    requires OnlyEvents(line.queue) && ArrivalsAreEvents(turns)
    ensures var after := Steps(line, turns);
            && BodiesIn(Events(line.wire)) + line.queue + Entered(line, turns)
               == BodiesIn(Events(after.wire)) + Lost(line, turns) + after.queue
            && |Lost(line, turns)| <= 1
            && (after.running ==> Lost(line, turns) == [])
    decreases |turns|
  {
    hide Step, Events, BodiesIn, Entering, Losing, OnlyEvents;
    if turns != [] && line.running {
      var next, rest := Step(line, turns[0]), turns[1..];
      StepConserves(line, turns[0]);
      EventsAreConserved(next, rest);
      Regroup(BodiesIn(Events(line.wire)) + line.queue, Entering(line, turns[0]), Entered(next, rest),
              BodiesIn(Events(next.wire)), Losing(line, turns[0]), next.queue, Lost(next, rest));
    }
  }

  /** Events carry first, first + 1, ...; everything else carries 1, 2, ... */
  ghost predicate Numbered(line: Line, first: nat) {
    && (forall i :: 0 <= i < |Events(line.wire)| ==> Events(line.wire)[i].number == first + i)
    && (forall i :: 0 <= i < |Others(line.wire)| ==> Others(line.wire)[i].number == i + 1)
    && (!line.broken ==> line.sourceSeq + 1 == first + |Events(line.wire)| && line.counter == |Others(line.wire)|)
  }

  lemma StepNumbered(line: Line, turn: Turn, first: nat)
    requires line.running && Numbered(line, first) && OnlyEvents(line.queue) && (turn.Arrive? ==> turn.body.Event?)
    requires line.sourceSeq + 1 < TWO_64 && line.counter + 1 < TWO_64
    ensures Numbered(Step(line, turn), first) && OnlyEvents(Step(line, turn).queue)
    ensures Step(line, turn).sourceSeq <= line.sourceSeq + 1 && Step(line, turn).counter <= line.counter + 1
  {
    hide Events, Others, BodiesIn;
    if turn.Take? && line.queue != [] {
      var number := line.sourceSeq + 1;
      WriteAppends(line.(sourceSeq := number, queue := line.queue[1..]), number, line.queue[0], turn.writes);
    } else if turn.Tick? || turn.Answer? {
      WriteAppends(line, 0, Control(turn.text), turn.writes);
    }
  }

  /** The two number spaces of a connection stay apart, each without gap or repeat, until a counter would wrap. */
  lemma {:induction false} NumbersStayApart(line: Line, turns: seq<Turn>, first: nat)
    requires Numbered(line, first) && OnlyEvents(line.queue) && ArrivalsAreEvents(turns)
    requires line.sourceSeq + |turns| < TWO_64 && line.counter + |turns| < TWO_64
    ensures Numbered(Steps(line, turns), first)
    decreases |turns|
  {
    hide Step, Numbered, OnlyEvents;
    if turns != [] && line.running {
      StepNumbered(line, turns[0], first);
      NumbersStayApart(Step(line, turns[0]), turns[1..], first);
    }
  }

  // ---------------------------------------------------------------- single turns

  lemma OneTurn(line: Line, turn: Turn)
    requires line.running
    ensures Steps(line, [turn]) == Step(line, turn)
  {
    assert [turn][1..] == [];
  }

  /**
   The loop stops exactly when it is told to, when the server was silent for too long at a tick, or when a ping or an
   event cannot be written.
   */
  lemma WhatStops(line: Line, turn: Turn)
    requires line.running
    ensures !Steps(line, [turn]).running <==>
            || turn.Quit?
            || (turn.Tick? && (turn.expired || !turn.writes || line.broken))
            || (turn.Take? && line.queue != [] && (!turn.writes || line.broken))
  {
    OneTurn(line, turn);
  }

  /** Once stopped, nothing more happens. */
  lemma StoppedStays(line: Line, turns: seq<Turn>)
    requires !line.running
    ensures Steps(line, turns) == line
  {}

  /**
   A tick with a server that was heard in time sends one ping, and a ping of the server is answered by one more frame,
   under the connection's next number each; nothing else changes.
   */
  lemma PingsAndPongs(line: Line, turn: Turn)
    requires line.running && !line.broken && (turn.Answer? || (turn.Tick? && !turn.expired)) && turn.writes
    ensures Steps(line, [turn]) == line.(
              counter := Increment(line.counter),
              wire := line.wire + [Written(Increment(line.counter), Control(turn.text))])
  {
    OneTurn(line, turn);
  }

  /** Stopping for silence or on request writes nothing, and a pong that fails breaks the connection for good. */
  lemma QuietStops(line: Line, turn: Turn)
    requires line.running
    ensures turn.Quit? || (turn.Tick? && turn.expired) ==> Steps(line, [turn]) == line.(running := false)
    ensures turn.Answer? && !turn.writes ==> Steps(line, [turn]).broken && Steps(line, [turn]).wire == line.wire
  {
    OneTurn(line, turn);
  }

  // ---------------------------------------------------------------- the connection in the end-to-end model

  function AsEvent(frame: Frame): Message {
    Event(Live(frame.kind, frame.claimed, frame.client, frame.payload))
  }

  function AsFrame(body: Message): Frame
    requires body.Event?
  {
    Frame(body.live.kind, body.live.source, body.live.client, body.live.payload)
  }

  /** The client of the model runs on its last link as this connection does. */
  ghost predicate Matches(y: EndToEnd.System, line: Line) {
    && y.links != [] && y.running == line.running
    && line.sourceSeq == EndToEnd.NumberOf(y.count)
    && |line.queue| == |y.queue|
    && (forall i :: 0 <= i < |y.queue| ==> line.queue[i] == AsEvent(y.queue[i].frame))
  }

  /** Taking an event is the model's Forward; an arrival is its Aim and Publish; what stops the loop is its Hangup. */
  function ActionsOf(line: Line, turn: Turn): seq<EndToEnd.Action>
    requires turn.Arrive? ==> turn.body.Event?
  {
    match turn
    case Arrive(body) => [EndToEnd.Aim, EndToEnd.Publish(AsFrame(body))]
    case Take(writes) =>
      if line.queue == [] then [] else [EndToEnd.Forward(writes && !line.broken, !(writes && !line.broken))]
    case _ => if Step(line, turn).running then [] else [EndToEnd.Hangup]
  }

  ghost function DoAll(c: EndToEnd.Client, y: EndToEnd.System, actions: seq<EndToEnd.Action>): EndToEnd.System
    decreases |actions|
  {
    if actions == [] then y else DoAll(c, EndToEnd.Do(c, y, actions[0]), actions[1..])
  }

  lemma {:induction false} DoAllConcat(c: EndToEnd.Client, y: EndToEnd.System, a: seq<EndToEnd.Action>,
                                       b: seq<EndToEnd.Action>)
    ensures DoAll(c, y, a + b) == DoAll(c, DoAll(c, y, a), b)
    decreases |a|
  {
    if a == [] {
      assert a + b == b;
    } else {
      assert (a + b)[1..] == a[1..] + b;
      DoAllConcat(c, EndToEnd.Do(c, y, a[0]), a[1..], b);
    }
  }

  /** What the model puts on the last link is what the connection writes, event by event. */
  ghost predicate SameEvents(packets: seq<EndToEnd.Packet>, events: seq<Written>) {
    && |packets| == |events|
    && (forall i :: 0 <= i < |packets| ==>
        packets[i].number == events[i].number && AsEvent(packets[i].frame) == events[i].body)
  }

  ghost predicate Sends(y: EndToEnd.System, y': EndToEnd.System, packets: seq<EndToEnd.Packet>) {
    && y.links != [] && |y'.links| == |y.links|
    && y'.links[|y.links| - 1].wire == y.links[|y.links| - 1].wire + packets
  }

  lemma TakeIsForward(c: EndToEnd.Client, y: EndToEnd.System, line: Line, writes: bool)
    returns (packets: seq<EndToEnd.Packet>, events: seq<Written>)
    requires Matches(y, line) && line.running && OnlyEvents(line.queue) && line.queue != [] && y.count + 1 < TWO_64
    ensures var ok := writes && !line.broken;
            var y' := EndToEnd.Do(c, y, EndToEnd.Forward(ok, !ok));
            && Matches(y', Step(line, Take(writes))) && Sends(y, y', packets) && y'.count == y.count + 1
            && Events(Step(line, Take(writes)).wire) == Events(line.wire) + events
            && SameEvents(packets, events)
  {
    var ok := writes && !line.broken;
    var number := Increment(line.sourceSeq);
    NextNumber(y.count);
    SmallNumber(y.count + 1);
    WriteAppends(line.(sourceSeq := number, queue := line.queue[1..]), number, line.queue[0], writes);
    packets := if ok then [EndToEnd.Packet(number, y.queue[0].index, y.queue[0].frame)] else [];
    events := if ok then [Written(number, line.queue[0])] else [];
    Forwards(c, y, ok);
    hide Events, Increment, EndToEnd.NumberOf, EndToEnd.Do;
  }

  lemma Forwards(c: EndToEnd.Client, y: EndToEnd.System, ok: bool)
    requires y.running && y.links != [] && y.queue != []
    ensures var y' := EndToEnd.Do(c, y, EndToEnd.Forward(ok, !ok));
            var packet := EndToEnd.Packet(EndToEnd.NumberOf(y.count + 1), y.queue[0].index, y.queue[0].frame);
            && y'.count == y.count + 1 && y'.queue == y.queue[1..] && y'.running == ok
            && Sends(y, y', if ok then [packet] else [])
  {
    hide EndToEnd.NumberOf;
  }

  /** Counting modulo 2^64 gives the n-th event number n. */
  lemma NextNumber(n: nat)
    ensures Increment(EndToEnd.NumberOf(n)) == EndToEnd.NumberOf(n + 1)
  {}

  lemma SmallNumber(n: nat)
    requires n < TWO_64
    ensures EndToEnd.NumberOf(n) == n
  {}

  lemma ArriveIsPublish(c: EndToEnd.Client, y: EndToEnd.System, line: Line, body: Message)
    requires Matches(y, line) && line.running && body.Event?
    ensures var y' := DoAll(c, y, ActionsOf(line, Arrive(body)));
            Matches(y', Step(line, Arrive(body))) && Sends(y, y', []) && y'.count == y.count
  {
    var aim, publish := EndToEnd.Aim, EndToEnd.Publish(AsFrame(body));
    assert [aim, publish] == [aim] + [publish];
    DoAllConcat(c, y, [aim], [publish]);
    One(c, y, aim);
    One(c, EndToEnd.Do(c, y, aim), publish);
    hide DoAll;
  }

  /** One turn of the loop is what the model's actions do. */
  lemma TurnIsActions(c: EndToEnd.Client, y: EndToEnd.System, line: Line, turn: Turn)
    returns (packets: seq<EndToEnd.Packet>, events: seq<Written>)
    requires Matches(y, line) && line.running && OnlyEvents(line.queue) && (turn.Arrive? ==> turn.body.Event?)
    requires y.count + 1 < TWO_64
    ensures var y' := DoAll(c, y, ActionsOf(line, turn));
            && Matches(y', Step(line, turn)) && Sends(y, y', packets) && y.count <= y'.count <= y.count + 1
    ensures Events(Step(line, turn).wire) == Events(line.wire) + events && SameEvents(packets, events)
  {
    packets, events := [], [];
    match turn
    case Take(writes) =>
      if line.queue != [] {
        packets, events := TakeIsForward(c, y, line, writes);
        One(c, y, EndToEnd.Forward(writes && !line.broken, !(writes && !line.broken)));
      }
    case Arrive(body) => ArriveIsPublish(c, y, line, body);
    case Tick(text, expired, writes) =>
      WriteAppends(line, 0, Control(text), writes);
      One(c, y, EndToEnd.Hangup);
    case Answer(text, writes) => WriteAppends(line, 0, Control(text), writes);
    case Quit => One(c, y, EndToEnd.Hangup);
  }

  lemma One(c: EndToEnd.Client, y: EndToEnd.System, action: EndToEnd.Action)
    ensures DoAll(c, y, [action]) == EndToEnd.Do(c, y, action)
  {
    assert [action][1..] == [];
  }

  /** From (y, line) to (y', line') the model sends what the connection writes, and the two match again. */
  ghost predicate Alike(y: EndToEnd.System, line: Line, y': EndToEnd.System, line': Line,
                        packets: seq<EndToEnd.Packet>, events: seq<Written>)
  {
    && Matches(y', line') && Sends(y, y', packets)
    && Events(line'.wire) == Events(line.wire) + events && SameEvents(packets, events)
  }

  lemma AlikeNothing(y: EndToEnd.System, line: Line)
    requires Matches(y, line)
    ensures Alike(y, line, y, line, [], [])
  {}

  lemma AlikeJoins(y: EndToEnd.System, line: Line, y1: EndToEnd.System, line1: Line, y2: EndToEnd.System, line2: Line,
                   p: seq<EndToEnd.Packet>, e: seq<Written>, q: seq<EndToEnd.Packet>, f: seq<Written>)
    requires Alike(y, line, y1, line1, p, e) && Alike(y1, line1, y2, line2, q, f)
    ensures Alike(y, line, y2, line2, p + q, e + f)
  {
    hide Events, Matches;
    assert Events(line.wire) + e + f == Events(line.wire) + (e + f);
  }

  lemma TurnIsAlike(c: EndToEnd.Client, y: EndToEnd.System, line: Line, turn: Turn)
    returns (actions: seq<EndToEnd.Action>, packets: seq<EndToEnd.Packet>, events: seq<Written>)
    requires Matches(y, line) && line.running && OnlyEvents(line.queue) && (turn.Arrive? ==> turn.body.Event?)
    requires y.count + 1 < TWO_64
    ensures Alike(y, line, DoAll(c, y, actions), Step(line, turn), packets, events)
    ensures Matches(DoAll(c, y, actions), Step(line, turn)) && OnlyEvents(Step(line, turn).queue)
    ensures DoAll(c, y, actions).count <= y.count + 1
  {
    actions := ActionsOf(line, turn);
    packets, events := TurnIsActions(c, y, line, turn);
    StepConserves(line, turn);
    hide Events, Step, ActionsOf;
  }

  /**
   Every run of the loop is a run of the client of the end-to-end model: after the model's actions for its turns the two
   match again, and the model has put on the link exactly the events that the connection wrote.
   */
  lemma {:induction false} LoopIsActions(c: EndToEnd.Client, y: EndToEnd.System, line: Line, turns: seq<Turn>)
    returns (actions: seq<EndToEnd.Action>, packets: seq<EndToEnd.Packet>, events: seq<Written>)
    requires Matches(y, line) && OnlyEvents(line.queue) && ArrivalsAreEvents(turns) && y.count + |turns| < TWO_64
    ensures Alike(y, line, DoAll(c, y, actions), Steps(line, turns), packets, events)
    decreases |turns|
  {
    hide Matches, OnlyEvents, Step, Alike, EndToEnd.Do;
    if turns == [] || !line.running {
      actions, packets, events := [], [], [];
      AlikeNothing(y, line);
    } else {
      var first, p, e := TurnIsAlike(c, y, line, turns[0]);
      var y1, line1 := DoAll(c, y, first), Step(line, turns[0]);
      var rest, q, f := LoopIsActions(c, y1, line1, turns[1..]);
      DoAllConcat(c, y, first, rest);
      AlikeJoins(y, line, y1, line1, DoAll(c, y1, rest), Steps(line1, turns[1..]), p, e, q, f);
      actions, packets, events := first + rest, p + q, e + f;
    }
  }

  /** The model reaches the result from wherever it was. */
  lemma {:induction false} DoAllIsExec(c: EndToEnd.Client, before: seq<EndToEnd.Action>, actions: seq<EndToEnd.Action>)
    ensures DoAll(c, EndToEnd.Exec(c, before), actions) == EndToEnd.Exec(c, before + actions)
    decreases |actions|
  {
    if actions == [] {
      assert before + actions == before;
    } else {
      var longer := before + [actions[0]];
      assert longer[..|before|] == before && longer[|before|] == actions[0];
      assert longer + actions[1..] == before + actions;
      DoAllIsExec(c, longer, actions[1..]);
    }
  }

  /** A new connection matches: its channel is empty, and the counter is the process's. */
  lemma EstablishMatches(c: EndToEnd.Client, before: seq<EndToEnd.Action>, line: Line)
    requires EndToEnd.Enabled(c, EndToEnd.Exec(c, before), EndToEnd.Establish)
    requires line.running && line.queue == [] && line.sourceSeq == EndToEnd.NumberOf(EndToEnd.Exec(c, before).count)
    ensures Matches(EndToEnd.Exec(c, before + [EndToEnd.Establish]), line)
  {
    var longer := before + [EndToEnd.Establish];
    assert longer[..|before|] == before && longer[|before|] == EndToEnd.Establish;
    hide EndToEnd.NumberOf;
  }

  /**
   Joined to the end-to-end theorem: from wherever the model's run has come to, as long as it matches the connection,
   the run can be continued so that it matches the connection after the loop and has sent the same events.
   `EndToEnd.AcceptedInOrder` holds of the continued run, and so speaks about what the loop writes.
   */
  lemma LoopIsRun(c: EndToEnd.Client, before: seq<EndToEnd.Action>, line: Line, turns: seq<Turn>)
    returns (after: seq<EndToEnd.Action>, packets: seq<EndToEnd.Packet>, events: seq<Written>)
    requires Matches(EndToEnd.Exec(c, before), line) && OnlyEvents(line.queue) && ArrivalsAreEvents(turns)
    requires EndToEnd.Exec(c, before).count + |turns| < TWO_64
    ensures before <= after
    ensures Alike(EndToEnd.Exec(c, before), line, EndToEnd.Exec(c, after), Steps(line, turns), packets, events)
  {
    hide *;
    var actions, p, e := LoopIsActions(c, EndToEnd.Exec(c, before), line, turns);
    DoAllIsExec(c, before, actions);
    after, packets, events := before + actions, p, e;
  }

  // ---------------------------------------------------------------- the objects

  /** `make(chan *relaypb.Envelope, relayEventQueueSize)` */
  class EventChannel {
    var items: seq<Envelope>

    constructor ()
      ensures items == []
    {
      items := [];
    }
  }

  class LiveEventDispatcher {
    var active: EventChannel?

    constructor ()
      ensures active == null
    {
      active := null;
    }

    method Activate(events: EventChannel)
      modifies this
      ensures active == events
    {
      active := events;
    }

    /** A late deactivation of an old channel leaves the channel of a newer connection active. */
    method Deactivate(events: EventChannel)
      modifies this
      ensures active == if old(active) == events then null else old(active)
    {
      if active == events {
        active := null;
      }
    }

    /** Never blocks: an event for a full channel is dropped. */
    method Publish(envelope: Envelope) returns (delivered: bool, connected: bool)
      modifies if active == null then {} else {active}
      ensures active == old(active) && connected == (active != null)
      ensures delivered == (active != null && |old(active.items)| < 512)
      ensures active != null ==> active.items == old(active.items) + (if delivered then [envelope] else [])
    {
      if active == null {
        return false, false;
      }
      if |active.items| < EndToEnd.EVENT_QUEUE {
        active.items := active.items + [envelope];
        return true, true;
      }
      return false, true;
    }
  }

  class ConnectionState {
    var seqCounter: uint64
    var wire: seq<Written>
    var broken: bool

    constructor ()
      ensures seqCounter == 0 && wire == [] && !broken
    {
      seqCounter, wire, broken := 0, [], false;
    }

    /** Unlike the server, the client numbers the envelope itself. */
    method WriteEnvelope(envelope: Envelope, writes: bool) returns (ok: bool)
      modifies this, envelope
      ensures ok == (writes && !old(broken)) && broken == !ok
      ensures seqCounter == if old(envelope.number) == 0 then Increment(old(seqCounter)) else old(seqCounter)
      ensures envelope.number == if old(envelope.number) == 0 then seqCounter else old(envelope.number)
      ensures wire == old(wire) + (if ok then [Written(envelope.number, envelope.body)] else [])
    {
      if envelope.number == 0 {
        seqCounter := Increment(seqCounter);
        envelope.number := seqCounter;
      }
      ok := writes && !broken;
      if ok {
        wire := wire + [Written(envelope.number, envelope.body)];
      } else {
        broken := true;
      }
    }
  }

  class Client {
    var sourceSeq: uint64

    constructor ()
      ensures sourceSeq == 0
    {
      sourceSeq := 0;
    }

    ghost function View(connection: ConnectionState, events: EventChannel, running: bool): Line
      reads this, connection, events
    {
      Line(sourceSeq, connection.seqCounter, Bodies(events.items), connection.wire, connection.broken, running)
    }

    /** A ping or a pong. */
    method SendControl(connection: ConnectionState, events: EventChannel, text: string, writes: bool) returns (ok: bool)
      modifies connection
      ensures ok == !connection.broken
      ensures View(connection, events, true) == Write(old(View(connection, events, true)), 0, Control(text), writes)
    {
      var envelope := new Envelope(Control(text));
      ok := connection.WriteEnvelope(envelope, writes);
    }

    method TakeNext(connection: ConnectionState, events: EventChannel, writes: bool) returns (running: bool)
      modifies this, connection, events, events.items
      ensures View(connection, events, running) == Step(old(View(connection, events, true)), Take(writes))
      ensures old(connection.broken) ==> connection.broken
      ensures forall e :: e in events.items ==> e in old(events.items)
    {
      running := true;
      if events.items != [] {
        var envelope := events.items[0];
        events.items := events.items[1..];
        assert Bodies(events.items) == old(Bodies(events.items))[1..];
        sourceSeq := Increment(sourceSeq);
        envelope.number := sourceSeq;
        running := connection.WriteEnvelope(envelope, writes);
      }
    }

    /**
     The loop of runConnected with the dispatcher's channel as its input, next to readLoop and the listener; `turns` is
     the order things happen in.
     */
    method RunConnected(connection: ConnectionState, dispatcher: LiveEventDispatcher, events: EventChannel,
                        turns: seq<Turn>)
      returns (running: bool)
      requires dispatcher.active == events
      modifies this, connection, events, events.items
      ensures View(connection, events, running) == Steps(old(View(connection, events, true)), turns)
    {
      running := true;
      ghost var start := View(connection, events, true);
      var i := 0;
      while i < |turns| && running
        invariant 0 <= i <= |turns|
        invariant fresh(set e | e in events.items && e !in old(events.items))
        invariant Steps(View(connection, events, running), turns[i..]) == Steps(start, turns)
        decreases |turns| - i
      {
        ghost var line := View(connection, events, true);
        match turns[i] {
          case Quit =>
            running := false;
          case Arrive(body) =>
            var envelope := new Envelope(body);
            var delivered, _ := dispatcher.Publish(envelope);
            assert delivered ==> Bodies(events.items) == line.queue + [body];
          case Answer(text, writes) =>
            var _ := SendControl(connection, events, text, writes);
          case Tick(text, expired, writes) =>
            if expired {
              running := false;
            } else {
              running := SendControl(connection, events, text, writes);
            }
          case Take(writes) =>
            running := TakeNext(connection, events, writes);
        }
        assert View(connection, events, running) == Step(line, turns[i]);
        assert turns[i..][1..] == turns[i + 1..];
        i := i + 1;
      }
    }
  }
}
