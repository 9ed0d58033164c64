/** Tenants do not interfere: what tenant b's sessions see is what they would see alone on the server. */
module NonInterference {
  import opened Basics
  import opened Protocol
  import opened ServerModel
  import opened Worlds
  import opened WorldInvariants

  function ServerOf(st: State, b: string): State {
    map t | t in st && t == b :: st[t]
  }

  function BoxesOf(boxes: map<SessionId, Box>, b: string): map<SessionId, Box> {
    map id | id in boxes && boxes[id].tenant == b :: boxes[id]
  }

  function PublishersOf(publishers: map<SessionId, Publisher>, b: string): map<SessionId, Publisher> {
    map id | id in publishers && publishers[id].session.tenant == b :: publishers[id]
  }

  function PendingOf(pending: map<nat, Task>, b: string): map<nat, Task> {
    map k | k in pending && pending[k].tenant == b :: pending[k]
  }

  /** Tenant b's part of the world: runtime state, sessions with their queues and closed flags, unfinished work. */
  function On(w: World, b: string): World {
    World(ServerOf(w.server, b), BoxesOf(w.boxes, b), PublishersOf(w.publishers, b), PendingOf(w.pending, b))
  }

  /** The moves of tenant b's own sessions. */
  function Only(moves: seq<Move>, b: string): seq<Move> {
    if moves == [] then []
    else
      var before, last := Only(moves[..|moves| - 1], b), moves[|moves| - 1];
      if Mover(last) == b then before + [last] else before
  }

  lemma ApplyIsLocal(st: State, op: Op, b: string)
    ensures ServerOf(Apply(st, op), b) == if TenantOf(op) == b then Apply(ServerOf(st, b), op) else ServerOf(st, b)
  {
    if TenantOf(op) != b {
      ApplyElsewhere(st, op, b);
    } else {
      assert TenantOrNew(ServerOf(st, b), b) == TenantOrNew(st, b);
    }
  }

  /** A critical section's outputs depend on its own tenant only. */
  lemma EmitsIsLocal(st: State, op: Op, out: Output)
    ensures Emits(st, op, out) <==> Emits(ServerOf(st, TenantOf(op)), op, out)
  {
    var b := TenantOf(op);
    ApplyIsLocal(st, op, b);
    assert TenantOrNew(ServerOf(st, b), b) == TenantOrNew(st, b);
    assert b in Apply(st, op) ==> Apply(ServerOf(st, b), op)[b] == Apply(st, op)[b];
  }

  lemma PutBox(boxes: map<SessionId, Box>, id: SessionId, box: Box, b: string)
    requires id in boxes ==> boxes[id].tenant == box.tenant
    ensures BoxesOf(boxes[id := box], b) == if box.tenant == b then BoxesOf(boxes, b)[id := box] else BoxesOf(boxes, b)
  {}

  lemma PutPublisher(publishers: map<SessionId, Publisher>, id: SessionId, p: Publisher, b: string)
    requires id in publishers ==> publishers[id].session.tenant == p.session.tenant
    ensures PublishersOf(publishers[id := p], b) ==
            if p.session.tenant == b then PublishersOf(publishers, b)[id := p] else PublishersOf(publishers, b)
  {}

  lemma PutTask(pending: map<nat, Task>, k: nat, task: Task, b: string)
    requires k in pending ==> pending[k].tenant == task.tenant
    ensures PendingOf(Post(pending, k, task), b) ==
            if task.tenant == b then Post(PendingOf(pending, b), k, task) else PendingOf(pending, b)
  {}

  /** A critical section of a session of tenant t, seen from tenant b. */
  lemma LockedSeenFrom(w: World, k: nat, op: Op, out: Output, b: string)
    requires Enabled(w, Locked(k, op, out))
    requires IngestsLinked(w.server, w.publishers)
    ensures TenantOf(op) != b ==>
              && BoxesOf(BoxesAfter(w, op, out), b) == BoxesOf(w.boxes, b)
              && PublishersOf(PublishersAfter(w, op, out), b) == PublishersOf(w.publishers, b)
    ensures TenantOf(op) == b ==>
              && Scripted(On(w, b), op)
              && BoxesOf(BoxesAfter(w, op, out), b) == BoxesAfter(On(w, b), op, out)
              && PublishersOf(PublishersAfter(w, op, out), b) == PublishersAfter(On(w, b), op, out)
  {
    match op
    case RegisterIngestOp(s, _) => PutPublisher(w.publishers, s.id, Publisher(s, !out.refused, out.refused), b);
    case UnregisterIngestOp(s, _, _) => PutPublisher(w.publishers, s.id, w.publishers[s.id].(live := false), b);
    case RegisterWatchOp(t, id) =>
      if out.reply.Some? {
        PutBox(w.boxes, id, NewBox(t, out.reply.value), b);
      }
    case UnregisterWatchOp(_, id) => PutBox(w.boxes, id, w.boxes[id].(gone := true), b);
    case _ =>
  }

  lemma LockedMove(w: World, k: nat, op: Op, out: Output, b: string)
    requires Linked(w) && Enabled(w, Locked(k, op, out))
    ensures TenantOf(op) == b ==> Enabled(On(w, b), Locked(k, op, out))
    ensures On(Do(w, Locked(k, op, out)), b) ==
            if TenantOf(op) == b then Do(On(w, b), Locked(k, op, out)) else On(w, b)
  {
    ApplyIsLocal(w.server, op, b);
    LockedSeenFrom(w, k, op, out, b);
    PutTask(w.pending, k, Task(TenantOf(op), out.evicted, out.notes, Fresh), b);
    if TenantOf(op) == b {
      EmitsIsLocal(w.server, op, out);
    }
  }

  lemma DoneSeenFrom(w: World, k: nat, box: Box, b: string)
    requires k in w.pending && w.pending[k].notes != [] && w.pending[k].notes[0].to in w.boxes
    requires box.tenant == w.boxes[w.pending[k].notes[0].to].tenant == w.pending[k].tenant
    ensures On(Done(w, k, box), b) == if w.pending[k].tenant == b then Done(On(w, b), k, box) else On(w, b)
  {
    var task := w.pending[k];
    PutBox(w.boxes, task.notes[0].to, box, b);
    PutTask(w.pending, k, task.(notes := task.notes[1..], stage := Fresh), b);
  }

  lemma EvictMove(w: World, move: Move, b: string)
    requires Linked(w) && Enabled(w, move) && move.Evict?
    ensures move.tenant == b ==> Enabled(On(w, b), move)
    ensures On(Do(w, move), b) == if move.tenant == b then Do(On(w, b), move) else On(w, b)
  {
    hide Emits, Apply;
    var task := w.pending[move.task];
    assert TaskLinked(w.boxes, w.publishers, task);
    var id := task.evict.value.id;
    PutPublisher(w.publishers, id, w.publishers[id].(closed := true), b);
    PutTask(w.pending, move.task, task.(evict := None), b);
  }

  lemma CheckMove(w: World, move: Move, b: string)
    requires Linked(w) && Enabled(w, move) && move.Check?
    ensures move.tenant == b ==> Enabled(On(w, b), move)
    ensures On(Do(w, move), b) == if move.tenant == b then Do(On(w, b), move) else On(w, b)
  {
    hide Emits, Apply;
    var task := w.pending[move.task];
    assert TaskLinked(w.boxes, w.publishers, task);
    DoneSeenFrom(w, move.task, Refused(w.boxes[task.notes[0].to], task.notes[0].body), b);
    PutTask(w.pending, move.task, task.(stage := Checked), b);
    hide Linked, Refused, Done;
  }

  lemma PushMove(w: World, move: Move, b: string)
    requires Linked(w) && Enabled(w, move) && move.Push?
    ensures move.tenant == b ==> Enabled(On(w, b), move)
    ensures On(Do(w, move), b) == if move.tenant == b then Do(On(w, b), move) else On(w, b)
  {
    hide Emits, Apply;
    var task := w.pending[move.task];
    assert TaskLinked(w.boxes, w.publishers, task);
    var note := task.notes[0];
    var box := w.boxes[note.to];
    DoneSeenFrom(w, move.task, Pushed(box, note.body, move.chosen), b);
    PutBox(w.boxes, note.to, Refused(box, note.body), b);
    PutTask(w.pending, move.task, task.(stage := Full), b);
    hide Linked, Pushed, Refused, Done;
  }

  lemma ShutMove(w: World, move: Move, b: string)
    requires Linked(w) && Enabled(w, move) && move.Shut?
    ensures move.tenant == b ==> Enabled(On(w, b), move)
    ensures On(Do(w, move), b) == if move.tenant == b then Do(On(w, b), move) else On(w, b)
  {
    hide Emits, Apply;
    var task := w.pending[move.task];
    assert TaskLinked(w.boxes, w.publishers, task);
    DoneSeenFrom(w, move.task, w.boxes[task.notes[0].to].(closed := true), b);
    hide Linked, Done;
  }

  lemma SessionMove(w: World, move: Move, b: string)
    requires Enabled(w, move) && (move.Greet? || move.Fetch? || move.Write? || move.CloseWatch? || move.CloseIngest?)
    ensures move.tenant == b ==> Enabled(On(w, b), move)
    ensures On(Do(w, move), b) == if move.tenant == b then Do(On(w, b), move) else On(w, b)
  {
    hide Emits, Apply;
    match move
    case Greet(id, _, ok) => PutBox(w.boxes, id, Greeted(w.boxes[id], ok), b);
    case Fetch(id, _) => PutBox(w.boxes, id, Fetched(w.boxes[id]), b);
    case Write(id, _, ok) => PutBox(w.boxes, id, Flushed(w.boxes[id], ok), b);
    case CloseWatch(id, _) => PutBox(w.boxes, id, w.boxes[id].(closed := true), b);
    case CloseIngest(id, _) => PutPublisher(w.publishers, id, w.publishers[id].(closed := true), b);
  }

  /** One move, seen from tenant b: the same move when it is b's own, nothing when it is not. */
  lemma MoveSeenFrom(w: World, move: Move, b: string)
    requires Linked(w) && Enabled(w, move)
    ensures Mover(move) == b ==> Enabled(On(w, b), move)
    ensures On(Do(w, move), b) == if Mover(move) == b then Do(On(w, b), move) else On(w, b)
  {
    hide Do, Enabled, On, Linked;
    match move
    case Locked(k, op, out) => LockedMove(w, k, op, out, b);
    case Evict(_, _) => EvictMove(w, move, b);
    case Check(_, _) => CheckMove(w, move, b);
    case Push(_, _, _) => PushMove(w, move, b);
    case Shut(_, _) => ShutMove(w, move, b);
    case _ => SessionMove(w, move, b);
  }

  lemma HappensPrefix(moves: seq<Move>)
    requires moves != [] && Happens(moves)
    ensures Happens(moves[..|moves| - 1]) && Enabled(Exec(moves[..|moves| - 1]), moves[|moves| - 1])
  {
    assert forall i :: 0 <= i < |moves| - 1 ==> moves[..|moves| - 1][..i] == moves[..i];
  }

  lemma HappensNext(moves: seq<Move>, next: Move)
    requires Happens(moves) && Enabled(Exec(moves), next)
    ensures Happens(moves + [next]) && Exec(moves + [next]) == Do(Exec(moves), next)
  {
    var longer := moves + [next];
    assert longer[..|moves|] == moves;
    assert forall i :: 0 <= i < |moves| ==> longer[..i] == moves[..i];
  }

  /**
   Non-interference. Take any interleaving that can happen and any tenant b. Erasing every move of the other tenants'
   sessions leaves something that can happen too, and leaves b's part of the world exactly the same: its runtime state,
   every queue and wire of its watch sessions, which of its sessions are closed, and its unfinished work.
   */
  lemma {:induction false} TenantsDoNotInterfere(moves: seq<Move>, b: string)
    requires Happens(moves)
    ensures Happens(Only(moves, b))
    ensures On(Exec(moves), b) == Exec(Only(moves, b))
  {
    if moves != [] {
      var before, last := moves[..|moves| - 1], moves[|moves| - 1];
      HappensPrefix(moves);
      TenantsDoNotInterfere(before, b);
      AlwaysLinked(before);
      MoveSeenFrom(Exec(before), last, b);
      if Mover(last) == b {
        HappensNext(Only(before, b), last);
      }
    }
  }
}
