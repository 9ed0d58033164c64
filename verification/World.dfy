/**
 The server as it runs: critical sections of many sessions, and between them, in any interleaving, the work that
 happens outside the lock - closing evicted sessions, queueing notifications one at a time, writing queues out. A move
 is one lock section or one channel or connection operation: whatever another goroutine can do in between, it can do
 here.
 */
module Worlds {
  import opened Basics
  import opened Protocol
  import opened ServerModel

  const QUEUE := 128  // watchOutboundQueueSize

  /** One message that reached a ready session, and whether its queue took it. */
  datatype Attempt = Attempt(body: Message, taken: bool)

  /**
   A watch session. `greeting` is the catalog its registration replied with, `queue` the outbound channel and `inflight`
   what the writer has taken out of it and not written yet. The other sequences are histories: `direct` was sent before
   the writer started, `offered` is everything dispatched since the session became ready, `accepted` what the queue
   took, `sent` what the writer put on the wire. `writing` turns false when the writer goroutine ends or can no longer
   start.
   */
  datatype Box = Box(
    tenant: string, ready: bool, gone: bool, closed: bool, writing: bool, greeting: Message,
    queue: seq<Message>, inflight: Option<Message>,
    direct: seq<Message>, offered: seq<Attempt>, accepted: seq<Message>, sent: seq<Message>)

  function NewBox(tenant: string, greeting: Message): Box {
    Box(tenant, false, false, false, true, greeting, [], None, [], [], [], [])
  }

  /** The session is inactive or full: the message is missed, unless the session was not ready for any. */
  function Refused(box: Box, body: Message): Box {
    if box.ready then box.(offered := box.offered + [Attempt(body, false)]) else box
  }

  function Taken(box: Box, body: Message): Box {
    box.(offered := box.offered + [Attempt(body, true)], queue := box.queue + [body], accepted := box.accepted + [body])
  }

  /** The first select of enqueueEnvelope lets the message through. */
  predicate Open(box: Box) {
    box.ready && !box.closed
  }

  /** The second select finds no room and no reason to give up: the message is missed and the session will be closed. */
  predicate Overflows(box: Box) {
    !box.closed && |box.queue| >= QUEUE
  }

  /**
   The second select takes the message. If the session was closed after the first one and there is room, either case
   may be chosen: `chosen` says which.
   */
  predicate Fits(box: Box, chosen: bool) {
    |box.queue| < QUEUE && (box.closed ==> chosen)
  }

  function Pushed(box: Box, body: Message, chosen: bool): Box {
    if Fits(box, chosen) then Taken(box, body) else Refused(box, body)
  }

  /** enqueueEnvelope and the close of a full session, with nothing in between. */
  function Offer(box: Box, body: Message): Box {
    if !Open(box) then Refused(box, body)
    else if Overflows(box) then Refused(box, body).(closed := true)
    else Taken(box, body)
  }

  function OfferAll(box: Box, bodies: seq<Message>): Box
    decreases |bodies|
  {
    if bodies == [] then box else OfferAll(Offer(box, bodies[0]), bodies[1..])
  }

  /** The writer goroutine takes an envelope; sendEnvelope gives up on a closed session, which ends the writer. */
  function Fetched(box: Box): Box
    requires box.queue != []
  {
    var rest := box.(queue := box.queue[1..]);
    if box.closed then rest.(writing := false) else rest.(inflight := Some(box.queue[0]))
  }

  /** The write, with its outcome. */
  function Flushed(box: Box, ok: bool): Box
    requires box.inflight.Some?
  {
    var rest := box.(inflight := None);
    if ok then rest.(sent := box.sent + [box.inflight.value]) else rest.(closed := true, writing := false)
  }

  /** An ingest session that was admitted; `live` until it unregisters. */
  datatype Publisher = Publisher(session: Ingest, live: bool, closed: bool)

  /** How far enqueueEnvelope has come with the first note of a task. `Full` also owes the session its close. */
  datatype Stage = Fresh | Checked | Full

  /** What a goroutine still has to do after leaving its critical section. */
  datatype Task = Task(tenant: string, evict: Option<Ingest>, notes: seq<Note>, stage: Stage)

  datatype World = World(
    server: State, boxes: map<SessionId, Box>, publishers: map<SessionId, Publisher>, pending: map<nat, Task>)

  const START := World(map[], map[], map[], map[])

  /** Every move names the tenant of the session that makes it. */
  datatype Move =
    | Locked(task: nat, op: Op, out: Output)
    | Evict(task: nat, tenant: string)
    | Check(task: nat, tenant: string)                 // the first select of enqueueEnvelope
    | Push(task: nat, tenant: string, chosen: bool)    // the second select
    | Shut(task: nat, tenant: string)                  // close of a backpressured session
    | Greet(watcher: SessionId, tenant: string, ok: bool)
    | Fetch(watcher: SessionId, tenant: string)
    | Write(watcher: SessionId, tenant: string, ok: bool)
    | CloseWatch(watcher: SessionId, tenant: string)
    | CloseIngest(publisher: SessionId, tenant: string)

  function Mover(move: Move): string {
    if move.Locked? then TenantOf(move.op) else move.tenant
  }

  /** When each session may enter its critical sections: the scripts of handleConnection and the two read loops. */
  predicate Scripted(w: World, op: Op) {
    match op
    case RegisterIngestOp(s, _) => s.id !in w.publishers && s.source != ""
    case UnregisterIngestOp(s, replaced, _) =>
      s.id in w.publishers && w.publishers[s.id].session == s && w.publishers[s.id].live && !replaced
    case IngestEventOp(s, _, _, _) =>
      s.id in w.publishers && w.publishers[s.id].session == s && w.publishers[s.id].live
    case RegisterWatchOp(_, id) => id !in w.boxes
    case UnregisterWatchOp(t, id) =>
      && id in w.boxes && w.boxes[id].tenant == t && !w.boxes[id].gone
      && (w.boxes[id].ready ==> w.boxes[id].closed)
    case SelectSourceOp(t, id, _) =>
      id in w.boxes && w.boxes[id].tenant == t && w.boxes[id].ready && !w.boxes[id].gone
  }

  /** The task is at this stage of queueing its first note. */
  predicate Handling(w: World, k: nat, stage: Stage)
    requires k in w.pending
  {
    w.pending[k].stage == stage && w.pending[k].notes != [] && w.pending[k].notes[0].to in w.boxes
  }

  ghost predicate Enabled(w: World, move: Move) {
    match move
    case Locked(k, op, out) => k !in w.pending && Scripted(w, op) && Emits(w.server, op, out)
    case Evict(k, t) => k in w.pending && w.pending[k].tenant == t && w.pending[k].evict.Some?
    case Check(k, t) =>
      && k in w.pending && w.pending[k].tenant == t && w.pending[k].evict.None?
      && w.pending[k].notes != [] && w.pending[k].stage == Fresh
    case Push(k, t, _) => k in w.pending && w.pending[k].tenant == t && Handling(w, k, Checked)
    case Shut(k, t) => k in w.pending && w.pending[k].tenant == t && Handling(w, k, Full)
    case Greet(id, t, _) =>
      id in w.boxes && w.boxes[id].tenant == t && !w.boxes[id].ready && !w.boxes[id].gone && w.boxes[id].writing
    case Fetch(id, t) =>
      && id in w.boxes && w.boxes[id].tenant == t && w.boxes[id].ready && w.boxes[id].writing
      && w.boxes[id].queue != [] && w.boxes[id].inflight.None?
    case Write(id, t, _) => id in w.boxes && w.boxes[id].tenant == t && w.boxes[id].inflight.Some?
    case CloseWatch(id, t) => id in w.boxes && w.boxes[id].tenant == t && w.boxes[id].ready
    case CloseIngest(id, t) => id in w.publishers && w.publishers[id].session.tenant == t
  }

  function Post(pending: map<nat, Task>, k: nat, task: Task): map<nat, Task> {
    if task.evict.None? && task.notes == [] then pending - {k} else pending[k := task]
  }

  function ClosePublisher(w: World, id: SessionId): map<SessionId, Publisher> {
    if id in w.publishers then w.publishers[id := w.publishers[id].(closed := true)] else w.publishers
  }

  function BoxesAfter(w: World, op: Op, out: Output): map<SessionId, Box> {
    match op
    case RegisterWatchOp(t, id) =>
      if out.reply.None? then w.boxes
      else w.boxes[id := NewBox(t, out.reply.value)]
    case UnregisterWatchOp(_, id) => if id in w.boxes then w.boxes[id := w.boxes[id].(gone := true)] else w.boxes
    case _ => w.boxes
  }

  function PublishersAfter(w: World, op: Op, out: Output): map<SessionId, Publisher> {
    match op
    case RegisterIngestOp(s, _) => w.publishers[s.id := Publisher(s, !out.refused, out.refused)]
    case UnregisterIngestOp(s, _, _) =>
      if s.id in w.publishers then w.publishers[s.id := w.publishers[s.id].(live := false)] else w.publishers
    case _ => w.publishers
  }

  function Greeted(box: Box, ok: bool): Box {
    if ok then box.(direct := [box.greeting], ready := true) else box.(writing := false)
  }

  /** The task is done with its first note, which leaves its session as `box`. */
  function Done(w: World, k: nat, box: Box): World
    requires k in w.pending && w.pending[k].notes != []
  {
    var task := w.pending[k];
    w.(boxes := if task.notes[0].to in w.boxes then w.boxes[task.notes[0].to := box] else w.boxes,
       pending := Post(w.pending, k, task.(notes := task.notes[1..], stage := Fresh)))
  }

  function Checking(w: World, k: nat): World
    requires k in w.pending && w.pending[k].notes != []
  {
    var note := w.pending[k].notes[0];
    if note.to !in w.boxes then w.(pending := Post(w.pending, k, w.pending[k].(notes := w.pending[k].notes[1..])))
    else if Open(w.boxes[note.to]) then w.(pending := w.pending[k := w.pending[k].(stage := Checked)])
    else Done(w, k, Refused(w.boxes[note.to], note.body))
  }

  function Pushing(w: World, k: nat, chosen: bool): World
    requires k in w.pending && w.pending[k].notes != [] && w.pending[k].notes[0].to in w.boxes
  {
    var note := w.pending[k].notes[0];
    var box := w.boxes[note.to];
    if Overflows(box) then
      w.(boxes := w.boxes[note.to := Refused(box, note.body)],
         pending := w.pending[k := w.pending[k].(stage := Full)])
    else Done(w, k, Pushed(box, note.body, chosen))
  }

  /** The effect of a move. A move that is not enabled does not happen. */
  ghost function Do(w: World, move: Move): World {
    if !Enabled(w, move) then w
    else
      match move
      case Locked(k, op, out) =>
        World(Apply(w.server, op), BoxesAfter(w, op, out), PublishersAfter(w, op, out),
              Post(w.pending, k, Task(TenantOf(op), out.evicted, out.notes, Fresh)))
      case Evict(k, _) =>
        w.(publishers := ClosePublisher(w, w.pending[k].evict.value.id),
           pending := Post(w.pending, k, w.pending[k].(evict := None)))
      case Check(k, _) => Checking(w, k)
      case Push(k, _, chosen) => Pushing(w, k, chosen)
      case Shut(k, _) => Done(w, k, w.boxes[w.pending[k].notes[0].to].(closed := true))
      case Greet(id, _, ok) => w.(boxes := w.boxes[id := Greeted(w.boxes[id], ok)])
      case Fetch(id, _) => w.(boxes := w.boxes[id := Fetched(w.boxes[id])])
      case Write(id, _, ok) => w.(boxes := w.boxes[id := Flushed(w.boxes[id], ok)])
      case CloseWatch(id, _) => w.(boxes := w.boxes[id := w.boxes[id].(closed := true)])
      case CloseIngest(id, _) => w.(publishers := ClosePublisher(w, id))
  }

  /** The world after any sequence of moves from a new server. */
  ghost function Exec(moves: seq<Move>): World {
    if moves == [] then START else Do(Exec(moves[..|moves| - 1]), moves[|moves| - 1])
  }

  ghost predicate Happens(moves: seq<Move>) {
    forall i :: 0 <= i < |moves| ==> Enabled(Exec(moves[..i]), moves[i])
  }
}
