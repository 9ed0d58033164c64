/**
 One ingest client process and the server, with any number of reconnects and any delay of the frames in flight on old
 connections, next to any other sessions.
 */
module EndToEnd {
  import opened Basics
  import opened SequenceWindows
  import opened Protocol
  import opened ServerModel
  import opened Runs

  const EVENT_QUEUE := 512  // relayEventQueueSize

  /** An event frame on a connection. `item` is the index of the event among everything the listener published. */
  datatype Packet = Packet(number: uint64, item: nat, frame: Frame)

  /**
   One connection of the client. `attempted` says the server has run registerIngest for it and `admitted` that it
   succeeded; `established` that the client saw the success and ran on it; `wire` holds the frames the server has not
   read yet.
   */
  datatype Link = Link(session: Ingest, attempted: bool, admitted: bool, established: bool, wire: seq<Packet>)

  /** A published event waiting in a channel. */
  datatype Item = Item(index: nat, frame: Frame)

  /**
   `count` is the number of events forwarded so far: sourceSeq before it wraps. `queue` is the event channel of the
   last link. `aim` is the link whose channel the publisher has read but not sent to yet. `accepted` records what the
   server has accepted from the client's sessions.
   */
  datatype System = System(
    server: State, links: seq<Link>, running: bool, count: nat, published: seq<Frame>, aim: Option<nat>,
    queue: seq<Item>, accepted: seq<Packet>)

  /** Identity of the client process: its configuration, with an instance id no other process uses. */
  datatype Client = Client(tenant: string, source: string, instance: string)

  predicate Ours(c: Client, s: Ingest) {
    s.tenant == c.tenant && s.source == c.source && s.instance == c.instance
  }

  function Begin(): System {
    System(map[], [], false, 0, [], None, [], [])
  }

  datatype Action =
    | Dial(session: Ingest)                 // connect, up to the auth request
    | Admit(link: nat, now: int)            // registerIngest on the server, possibly after the client gave up
    | Establish                             // auth result read, event channel activated
    | Hangup                                // runConnected ends
    | Aim                                   // publish reads the active channel
    | Publish(frame: Frame)                 // publish sends to it, or drops the event
    | Forward(written: bool, failed: bool)  // one event from the channel, numbered and written
    | Receive(link: nat, now: int)          // the server handles the next frame of a link
    | Drop(link: nat, now: int)             // unregisterIngest on the server
    | Foreign(op: Op)                       // a critical section of any other session

  ghost predicate Enabled(c: Client, y: System, a: Action) {
    match a
    case Dial(s) => !y.running && Ours(c, s) && forall i :: 0 <= i < |y.links| ==> y.links[i].session.id != s.id
    case Admit(i, _) => i < |y.links| && !y.links[i].attempted
    case Establish =>
      && !y.running && y.links != [] && y.links[|y.links| - 1].admitted && !y.links[|y.links| - 1].established
    case Hangup => y.running
    case Aim => true
    case Publish(_) => true
    case Forward(_, _) => y.running && y.links != [] && y.queue != []
    case Receive(i, _) => i < |y.links| && y.links[i].wire != []
    case Drop(i, _) => i < |y.links|
    case Foreign(op) =>
      op.RegisterIngestOp? || op.UnregisterIngestOp? || op.IngestEventOp? ==> !Ours(c, op.session)
  }

  /** sourceSeq after `count` increments: it wraps at 2^64. */
  function NumberOf(count: nat): uint64 {
    count % TWO_64
  }

  function Publishing(y: System, frame: Frame): System {
    var room := y.running && y.aim == Some(|y.links|) && |y.queue| < EVENT_QUEUE;
    y.(published := y.published + [frame], aim := None,
       queue := if room then y.queue + [Item(|y.published|, frame)] else y.queue)
  }

  /** A failed write ends the connection; whether its frame got through is left open. */
  function Forwarding(y: System, written: bool, failed: bool): System
    requires y.links != [] && y.queue != []
  {
    var last := |y.links| - 1;
    var packet := Packet(NumberOf(y.count + 1), y.queue[0].index, y.queue[0].frame);
    y.(count := y.count + 1, queue := y.queue[1..], running := y.running && !failed,
       links := if written then y.links[last := y.links[last].(wire := y.links[last].wire + [packet])] else y.links)
  }

  function Receiving(y: System, i: nat, now: int): System
    requires i < |y.links| && y.links[i].wire != []
  {
    var s, packet := y.links[i].session, y.links[i].wire[0];
    y.(server := Apply(y.server, IngestEventOp(s, packet.number, packet.frame, now)),
       links := y.links[i := y.links[i].(wire := y.links[i].wire[1..])],
       accepted := if Accepts(y.server, s, packet.number) then y.accepted + [packet] else y.accepted)
  }

  function Admitting(y: System, i: nat, now: int): System
    requires i < |y.links|
  {
    var s := y.links[i].session;
    y.(server := Apply(y.server, RegisterIngestOp(s, now)),
       links := y.links[i := y.links[i].(attempted := true, admitted := !Refuses(y.server, s))])
  }

  /** The effect of an action; an action that is not enabled does not happen. */
  ghost function Do(c: Client, y: System, a: Action): System {
    if !Enabled(c, y, a) then y
    else
      match a
      case Dial(s) => y.(links := y.links + [Link(s, false, false, false, [])])
      case Admit(i, now) => Admitting(y, i, now)
      case Establish =>
        var last := |y.links| - 1;
        y.(running := true, queue := [], links := y.links[last := y.links[last].(established := true)])
      case Hangup => y.(running := false)
      case Aim => y.(aim := if y.running then Some(|y.links|) else None)
      case Publish(frame) => Publishing(y, frame)
      case Forward(written, failed) => Forwarding(y, written, failed)
      case Receive(i, now) => Receiving(y, i, now)
      case Drop(i, now) => y.(server := Apply(y.server, UnregisterIngestOp(y.links[i].session, false, now)))
      case Foreign(op) => y.(server := Apply(y.server, op))
  }

  ghost function Exec(c: Client, actions: seq<Action>): System {
    if actions == [] then Begin() else Do(c, Exec(c, actions[..|actions| - 1]), actions[|actions| - 1])
  }

  // ---------------------------------------------------------------- invariant

  /** Strictly later, by number and by event. */
  predicate Before(p: Packet, q: Packet) {
    p.number < q.number && p.item < q.item
  }

  ghost predicate Ascending(packets: seq<Packet>) {
    forall i, j :: 0 <= i < j < |packets| ==> Before(packets[i], packets[j])
  }

  /** The packet carries a published event under a number already given out, older than everything queued. */
  ghost predicate Genuine(y: System, p: Packet) {
    && 1 <= p.number <= y.count
    && p.item < |y.published| && y.published[p.item] == p.frame
    && (forall k :: 0 <= k < |y.queue| ==> p.item < y.queue[k].index)
  }

  ghost predicate QueueSound(y: System) {
    && (forall i, j :: 0 <= i < j < |y.queue| ==> y.queue[i].index < y.queue[j].index)
    && (forall k :: 0 <= k < |y.queue| ==>
        y.queue[k].index < |y.published| && y.published[y.queue[k].index] == y.queue[k].frame)
  }

  ghost predicate LinkSound(c: Client, y: System, link: Link) {
    && Ours(c, link.session)
    && (!link.attempted ==> !link.admitted && link.wire == [])
    && Ascending(link.wire)
    && (forall p :: p in link.wire ==> Genuine(y, p))
    && (Owns(y.server, link.session) ==> forall p, q :: p in y.accepted && q in link.wire ==> Before(p, q))
  }

  ghost predicate LinksSound(c: Client, y: System) {
    && (forall i :: 0 <= i < |y.links| ==> LinkSound(c, y, y.links[i]))
    && (forall i, j :: 0 <= i < j < |y.links| ==> y.links[i].session.id != y.links[j].session.id)
  }

  function History(st: State, c: Client): seq<Key> {
    if Known(st, c.tenant, c.source) then st[c.tenant].sources[c.source].accepted else []
  }

  /** The window knows no number of ours that has not been accepted. */
  ghost predicate WindowSound(c: Client, y: System) {
    forall number :: Key(c.instance, number) in History(y.server, c) ==>
      exists p :: p in y.accepted && p.number == number
  }

  ghost predicate Sound(c: Client, y: System) {
    && QueueSound(y)
    && LinksSound(c, y)
    && WindowSound(c, y)
    && Ascending(y.accepted)
    && (forall p :: p in y.accepted ==> Genuine(y, p))
    && (y.running ==> y.links != [] && y.links[|y.links| - 1].attempted)
  }

  /** Critical sections of other sessions leave our history alone, apart from dropping it with the tenant. */
  lemma HistoryAfter(st: State, op: Op, c: Client, number: uint64)
    requires Key(c.instance, number) in History(Apply(st, op), c)
    ensures || Key(c.instance, number) in History(st, c)
            || (op.IngestEventOp? && Ours(c, op.session) && op.number == number && Accepts(st, op.session, number))
  {
    if TenantOf(op) != c.tenant {
      assert TenantOrNew(Apply(st, op), c.tenant) == TenantOrNew(st, c.tenant);
    }
  }

  /** Accepted frames of the active link are never duplicates. */
  lemma ActiveLinkAccepted(c: Client, y: System, i: nat)
    requires Sound(c, y) && i < |y.links| && y.links[i].wire != [] && Owns(y.server, y.links[i].session)
    ensures Accepts(y.server, y.links[i].session, y.links[i].wire[0].number)
  {
    var link := y.links[i];
    var packet := link.wire[0];
    assert LinkSound(c, y, link) && packet in link.wire;
    var key := Key(c.instance, packet.number);
    assert forall p :: p in y.accepted ==> Before(p, packet);
    assert key !in History(y.server, c);
    assert forall k :: k in LastN(History(y.server, c), WINDOW) ==> k in History(y.server, c);
  }

  lemma ServerStepSound(c: Client, y: System, op: Op)
    requires Sound(c, y)
    requires op.IngestEventOp? ==> !Ours(c, op.session)
    requires op.RegisterIngestOp? ==>
               forall i :: 0 <= i < |y.links| && y.links[i].session == op.session ==> y.links[i].wire == []
    ensures Sound(c, y.(server := Apply(y.server, op)))
  {
    var y' := y.(server := Apply(y.server, op));
    forall number | Key(c.instance, number) in History(y'.server, c)
      ensures exists p :: p in y'.accepted && p.number == number
    {
      HistoryAfter(y.server, op, c, number);
    }
    forall i | 0 <= i < |y.links|
      ensures LinkSound(c, y', y.links[i])
    {
      assert LinkSound(c, y, y.links[i]);
      if Owns(y'.server, y.links[i].session) && !Owns(y.server, y.links[i].session) {
        OwnershipIsRegistered(y.server, op, y.links[i].session);
      }
    }
  }

  lemma PublishKeepsGenuine(y: System, frame: Frame, p: Packet)
    requires QueueSound(y) && Genuine(y, p)
    ensures Genuine(Publishing(y, frame), p)
  {}

  lemma PublishKeepsQueue(y: System, frame: Frame)
    requires QueueSound(y)
    ensures QueueSound(Publishing(y, frame))
  {}

  lemma PublishSound(c: Client, y: System, frame: Frame)
    requires Sound(c, y)
    ensures Sound(c, Publishing(y, frame))
  {
    var y' := Publishing(y, frame);
    PublishKeepsQueue(y, frame);
    forall p | Genuine(y, p)
      ensures Genuine(y', p)
    {
      PublishKeepsGenuine(y, frame, p);
    }
    hide Owns, Genuine, Ascending, Accepts, QueueSound;
    forall i | 0 <= i < |y.links|
      ensures LinkSound(c, y', y.links[i])
    {
      assert LinkSound(c, y, y.links[i]);
    }
    assert WindowSound(c, y');
  }

  lemma ForwardSound(c: Client, y: System, written: bool, failed: bool)
    requires Sound(c, y) && y.running && y.queue != [] && y.count + 1 < TWO_64
    ensures Sound(c, Forwarding(y, written, failed))
  {
    assert NumberOf(y.count + 1) == y.count + 1;
    hide Owns, NumberOf;
    var y' := Forwarding(y, written, failed);
    var last := |y.links| - 1;
    var packet := Packet(NumberOf(y.count + 1), y.queue[0].index, y.queue[0].frame);
    assert forall p :: Genuine(y, p) ==> Genuine(y', p) && Before(p, packet);
    assert Genuine(y', packet);
    forall i | 0 <= i < |y'.links|
      ensures LinkSound(c, y', y'.links[i])
    {
      assert LinkSound(c, y, y.links[i]);
    }
  }

  lemma ReceiveSound(c: Client, y: System, i: nat, now: int)
    requires Sound(c, y) && i < |y.links| && y.links[i].wire != []
    ensures Sound(c, Receiving(y, i, now))
  {
    hide Duplicate;
    var y' := Receiving(y, i, now);
    var link := y.links[i];
    var packet := link.wire[0];
    var op := IngestEventOp(link.session, packet.number, packet.frame, now);
    assert LinkSound(c, y, link) && packet in link.wire;
    assert forall p :: Genuine(y, p) ==> Genuine(y', p);
    assert forall p :: p in link.wire[1..] ==> p in link.wire;
    forall number | Key(c.instance, number) in History(y'.server, c)
      ensures exists p :: p in y'.accepted && p.number == number
    {
      HistoryAfter(y.server, op, c, number);
      if Key(c.instance, number) in History(y.server, c) {
        var p :| p in y.accepted && p.number == number;
        assert p in y'.accepted;
      } else {
        assert packet in y'.accepted;
      }
    }
    forall j | 0 <= j < |y.links|
      ensures LinkSound(c, y', y'.links[j])
    {
      assert LinkSound(c, y, y.links[j]);
      if Owns(y'.server, y.links[j].session) && !Owns(y.server, y.links[j].session) {
        OwnershipIsRegistered(y.server, op, y.links[j].session);
      }
      assert j != i ==> y.links[j].session.id != link.session.id;
    }
  }

  lemma AdmitSound(c: Client, y: System, i: nat, now: int)
    requires Sound(c, y) && i < |y.links| && !y.links[i].attempted
    ensures Sound(c, Admitting(y, i, now))
  {
    var op := RegisterIngestOp(y.links[i].session, now);
    assert LinkSound(c, y, y.links[i]);
    ServerStepSound(c, y, op);
    var y1, y2 := y.(server := Apply(y.server, op)), Admitting(y, i, now);
    forall j | 0 <= j < |y.links|
      ensures LinkSound(c, y2, y2.links[j])
    {
      assert LinkSound(c, y1, y.links[j]);
    }
  }

  /** Actions of the client alone that move no event. */
  lemma ClientStepSound(c: Client, y: System, a: Action)
    requires Sound(c, y) && Enabled(c, y, a) && (a.Dial? || a.Establish? || a.Hangup? || a.Aim?)
    ensures Sound(c, Do(c, y, a))
  {
    var y' := Do(c, y, a);
    assert forall p :: Genuine(y, p) ==> Genuine(y', p);
    forall j | 0 <= j < |y'.links|
      ensures LinkSound(c, y', y'.links[j])
    {
      assert j < |y.links| ==> LinkSound(c, y, y.links[j]);
    }
  }

  lemma ActionSound(c: Client, y: System, a: Action)
    requires Sound(c, y) && Do(c, y, a).count < TWO_64
    ensures Sound(c, Do(c, y, a))
  {
    if Enabled(c, y, a) {
      match a
      case Admit(i, now) => AdmitSound(c, y, i, now);
      case Publish(frame) => PublishSound(c, y, frame);
      case Forward(written, failed) => ForwardSound(c, y, written, failed);
      case Receive(i, now) => ReceiveSound(c, y, i, now);
      case Drop(i, now) => ServerStepSound(c, y, UnregisterIngestOp(y.links[i].session, false, now));
      case Foreign(op) =>
        assert forall i :: 0 <= i < |y.links| ==> LinkSound(c, y, y.links[i]);
        ServerStepSound(c, y, op);
      case _ => ClientStepSound(c, y, a);
    }
  }

  lemma {:induction false} AlwaysSound(c: Client, actions: seq<Action>)
    requires Exec(c, actions).count < TWO_64
    ensures Sound(c, Exec(c, actions))
  {
    if actions != [] {
      var before := actions[..|actions| - 1];
      AlwaysSound(c, before);
      ActionSound(c, Exec(c, before), actions[|actions| - 1]);
    }
  }

  /**
   End-to-end fencing. For one client process with an instance id of its own that forwards fewer than 2^64 events, over
   any number of reconnects and any delay of frames in flight: the accepted events have strictly increasing numbers,
   are published events in publication order, each at most once.
   */
  lemma AcceptedInOrder(c: Client, actions: seq<Action>)
    requires Exec(c, actions).count < TWO_64
    ensures var y := Exec(c, actions);
            && (forall i, j :: 0 <= i < j < |y.accepted| ==>
                y.accepted[i].number < y.accepted[j].number && y.accepted[i].item < y.accepted[j].item)
            && (forall i :: 0 <= i < |y.accepted| ==>
                && 0 < y.accepted[i].number <= y.count
                && y.accepted[i].item < |y.published| && y.published[y.accepted[i].item] == y.accepted[i].frame)
  {
    AlwaysSound(c, actions);
    var y := Exec(c, actions);
    assert forall i :: 0 <= i < |y.accepted| ==> y.accepted[i] in y.accepted;
  }

  /** Hence the duplicate window never drops a frame of the client's active session. */
  lemma DuplicateWindowIsIdle(c: Client, actions: seq<Action>, i: nat, now: int)
    requires Exec(c, actions).count < TWO_64
    requires Enabled(c, Exec(c, actions), Receive(i, now))
    ensures var y := Exec(c, actions);
            && (Owns(y.server, y.links[i].session)
                <==> Accepts(y.server, y.links[i].session, y.links[i].wire[0].number))
            && Do(c, y, Receive(i, now)).accepted ==
               if Owns(y.server, y.links[i].session) then y.accepted + [y.links[i].wire[0]] else y.accepted
  {
    AlwaysSound(c, actions);
    if Owns(Exec(c, actions).server, Exec(c, actions).links[i].session) {
      ActiveLinkAccepted(c, Exec(c, actions), i);
    }
  }

  /** Registering a link succeeds exactly if it makes the link's session the owner of the source. */
  lemma AdmissionIsOwnership(c: Client, y: System, i: nat, now: int)
    requires Enabled(c, y, Admit(i, now)) && !Owns(y.server, y.links[i].session)
    ensures var y' := Do(c, y, Admit(i, now));
            y'.links[i].attempted && (y'.links[i].admitted <==> Owns(y'.server, y.links[i].session))
  {}

  /** Dropping a link ends its ownership, and no other link's. */
  lemma DropReleases(c: Client, y: System, i: nat, now: int)
    requires Enabled(c, y, Drop(i, now))
    ensures var y' := Do(c, y, Drop(i, now));
            && !Owns(y'.server, y.links[i].session) && y'.links == y.links && y'.accepted == y.accepted
            && (forall s :: s != y.links[i].session ==> (Owns(y'.server, s) <==> Owns(y.server, s)))
  {
    var gone := y.links[i].session;
    var op := UnregisterIngestOp(gone, false, now);
    assert AsCalled(op);
    forall s | s != gone
      ensures Owns(Apply(y.server, op), s) <==> Owns(y.server, s)
    {
      OwnerFollowsMarks(y.server, op, s.tenant, s.source);
    }
    OwnerFollowsMarks(y.server, op, gone.tenant, gone.source);
  }

  ghost predicate RunsOnLast(y: System) {
    && (y.running ==> y.links != [] && y.links[|y.links| - 1].admitted && y.links[|y.links| - 1].established)
    && (forall i :: 0 <= i < |y.links| ==> y.links[i].admitted ==> y.links[i].attempted)
  }

  lemma ActionKeepsLast(c: Client, y: System, a: Action)
    requires RunsOnLast(y)
    ensures RunsOnLast(Do(c, y, a))
  {
    hide Apply, Accepts, Refuses;
  }

  /** The client runs only on its last link, and only after the server has admitted it. */
  lemma {:induction false} RunsWhenAdmitted(c: Client, actions: seq<Action>)
    ensures RunsOnLast(Exec(c, actions))
  {
    if actions != [] {
      RunsWhenAdmitted(c, actions[..|actions| - 1]);
      ActionKeepsLast(c, Exec(c, actions[..|actions| - 1]), actions[|actions| - 1]);
    }
  }

  lemma NextAction(c: Client, actions: seq<Action>, a: Action)
    ensures Exec(c, actions + [a]) == Do(c, Exec(c, actions), a)
  {
    var longer := actions + [a];
    assert longer[..|actions|] == actions && longer[|actions|] == a;
  }

  /** A client that has been admitted by a new server and runs. */
  function Connected(s: Ingest): System {
    System(RegisterIngest(map[], s, 0), [Link(s, true, true, true, [])], true, 0, [], None, [], [])
  }

  lemma ConnectedIsReached(c: Client, s: Ingest) returns (actions: seq<Action>)
    requires Ours(c, s)
    ensures Exec(c, actions) == Connected(s)
  {
    actions := [Dial(s)];
    NextAction(c, [], Dial(s));
    assert [] + [Dial(s)] == actions;
    assert Exec(c, actions) == Begin().(links := [Link(s, false, false, false, [])]);
    NextAction(c, actions, Admit(0, 0));
    actions := actions + [Admit(0, 0)];
    assert Exec(c, actions).links == [Link(s, true, true, false, [])];
    NextAction(c, actions, Establish);
    actions := actions + [Establish];
  }

  /** Events do get through: what an admitted client publishes is forwarded under number 1 and accepted. */
  lemma FirstEventArrives(c: Client, s: Ingest, frame: Frame) returns (actions: seq<Action>)
    requires Ours(c, s)
    ensures Exec(c, actions).accepted == [Packet(1, 0, frame)] && Exec(c, actions).published == [frame]
  {
    actions := ConnectedIsReached(c, s);
    var y1 := Connected(s).(published := [frame], queue := [Item(0, frame)]);
    NextAction(c, actions, Aim);
    NextAction(c, actions + [Aim], Publish(frame));
    actions := actions + [Aim] + [Publish(frame)];
    assert Exec(c, actions) == y1;
    var packet := Packet(1, 0, frame);
    assert [Item(0, frame)][1..] == [] && [] + [packet] == [packet];
    assert y1.links[0 := Link(s, true, true, true, [packet])] == [Link(s, true, true, true, [packet])];
    var y2 := y1.(count := 1, queue := [], links := [Link(s, true, true, true, [Packet(1, 0, frame)])]);
    NextAction(c, actions, Forward(true, false));
    actions := actions + [Forward(true, false)];
    assert Exec(c, actions) == y2;
    NewSourceAccepts(s);
    NextAction(c, actions, Receive(0, 0));
    actions := actions + [Receive(0, 0)];
  }

  lemma NewSourceAccepts(s: Ingest)
    ensures Accepts(RegisterIngest(map[], s, 0), s, 1)
  {}

  /**
   The hypothesis of one process per instance id cannot be dropped: a process restarted under the same configured
   instance id numbers its events from 1 again, and its first event is taken for a duplicate.
   */
  lemma RestartCollides(early: Ingest, late: Ingest, f: Frame, g: Frame)
    requires early.tenant == late.tenant && early.source == late.source && early.instance == late.instance
    ensures var started := Apply(map[], RegisterIngestOp(early, 0));
            var sent := Apply(started, IngestEventOp(early, 1, f, 1));
            var restarted := Apply(sent, RegisterIngestOp(late, 2));
            && Accepts(started, early, 1)
            && Owns(restarted, late) && !Accepts(restarted, late, 1) && Accepts(restarted, late, 2)
            && Apply(restarted, IngestEventOp(late, 1, g, 3)) == restarted
  {
    var started := Apply(map[], RegisterIngestOp(early, 0));
    assert Owns(started, early) && started[early.tenant].sources[early.source].accepted == [];
    var sent := Apply(started, IngestEventOp(early, 1, f, 1));
    var key := Key(early.instance, 1);
    assert [] + [key] == [key] && [key][0] == key;
    assert sent[early.tenant].sources[early.source].accepted == [key];
    assert Key(late.instance, 2) !in [key];
  }
}
