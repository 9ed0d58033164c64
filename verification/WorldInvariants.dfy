/** What every interleaving keeps: sessions, server and unfinished work agree on each other. */
module WorldInvariants {
  import opened Basics
  import opened Protocol
  import opened ServerModel
  import opened Runs
  import opened Worlds

  /** The registered watch sessions of a tenant with their selections; none when the tenant is absent. */
  function WatchersIn(st: State, t: string): map<SessionId, string> {
    TenantOrNew(st, t).watchers
  }

  ghost predicate WatchersLinked(st: State, boxes: map<SessionId, Box>) {
    && (forall t, id :: id in WatchersIn(st, t) ==>
        && id in boxes && boxes[id].tenant == t && !boxes[id].gone
        && (!boxes[id].ready ==> WatchersIn(st, t)[id] == ""))
    && (forall id :: id in boxes && !boxes[id].gone ==> id in WatchersIn(st, boxes[id].tenant))
  }

  ghost predicate Published(publishers: map<SessionId, Publisher>, s: Ingest) {
    s.id in publishers && publishers[s.id].session == s
  }

  ghost predicate IngestsLinked(st: State, publishers: map<SessionId, Publisher>) {
    && (forall id :: id in publishers ==> publishers[id].session.id == id)
    && (forall s :: Owns(st, s) ==> Published(publishers, s) && publishers[s.id].live)
  }

  ghost predicate TaskLinked(boxes: map<SessionId, Box>, publishers: map<SessionId, Publisher>, task: Task) {
    && (task.evict.Some? ==> Published(publishers, task.evict.value) && task.evict.value.tenant == task.tenant)
    && (forall i :: 0 <= i < |task.notes| ==>
        task.notes[i].to in boxes && boxes[task.notes[i].to].tenant == task.tenant)
    && (task.stage != Fresh ==> task.evict.None? && task.notes != [] && boxes[task.notes[0].to].ready)
  }

  ghost predicate TasksLinked(w: World) {
    forall k :: k in w.pending ==> TaskLinked(w.boxes, w.publishers, w.pending[k])
  }

  ghost predicate Linked(w: World) {
    && WellFiled(w.server)
    && Collected(w.server)
    && WatchersLinked(w.server, w.boxes)
    && IngestsLinked(w.server, w.publishers)
    && TasksLinked(w)
  }

  lemma ApplyElsewhere(st: State, op: Op, t: string)
    requires t != TenantOf(op)
    ensures t in Apply(st, op) <==> t in st
    ensures t in st ==> Apply(st, op)[t] == st[t]
  {}

  /** The parts of an output that do not depend on the order of any loop. */
  lemma OutputFacts(st: State, op: Op, out: Output)
    requires Emits(st, op, out)
    ensures out.reply.Some? <==> op.RegisterWatchOp?
    ensures out.refused <==> op.RegisterIngestOp? && Refuses(st, op.session)
    ensures out.evicted ==
            if op.RegisterIngestOp? && !out.refused then OwnerOf(st, op.session.tenant, op.session.source) else None
  {}

  lemma WatchersAfter(st: State, op: Op, t: string)
    ensures WatchersIn(Apply(st, op), t) ==
            if t != TenantOf(op) then WatchersIn(st, t)
            else match op
              case RegisterWatchOp(_, id) => WatchersIn(st, t)[id := ""]
              case UnregisterWatchOp(_, id) => WatchersIn(st, t) - {id}
              case SelectSourceOp(_, id, name) =>
                if Known(st, t, name) && id in WatchersIn(st, t) then WatchersIn(st, t)[id := name]
                else WatchersIn(st, t)
              case _ => WatchersIn(st, t)
  {
    if t != TenantOf(op) {
      ApplyElsewhere(st, op, t);
    }
  }

  lemma LockedLinksWatchers(w: World, op: Op, out: Output)
    requires WatchersLinked(w.server, w.boxes) && Scripted(w, op)
    requires out.reply.Some? <==> op.RegisterWatchOp?
    ensures WatchersLinked(Apply(w.server, op), BoxesAfter(w, op, out))
  {
    var after, boxes := Apply(w.server, op), BoxesAfter(w, op, out);
    forall t, id | id in WatchersIn(after, t)
      ensures id in boxes && boxes[id].tenant == t && !boxes[id].gone
      ensures !boxes[id].ready ==> WatchersIn(after, t)[id] == ""
    {
      WatchersAfter(w.server, op, t);
    }
    forall id | id in boxes && !boxes[id].gone
      ensures id in WatchersIn(after, boxes[id].tenant)
    {
      WatchersAfter(w.server, op, boxes[id].tenant);
    }
  }

  lemma LockedLinksIngests(w: World, op: Op, out: Output)
    requires IngestsLinked(w.server, w.publishers) && Scripted(w, op)
    requires out.refused <==> op.RegisterIngestOp? && Refuses(w.server, op.session)
    ensures IngestsLinked(Apply(w.server, op), PublishersAfter(w, op, out))
  {
    var after := Apply(w.server, op);
    forall s | Owns(after, s)
      ensures Published(PublishersAfter(w, op, out), s) && PublishersAfter(w, op, out)[s.id].live
    {
      if !Owns(w.server, s) {
        OwnershipIsRegistered(w.server, op, s);
      }
    }
  }

  lemma {:induction false} SomethingForEach(notes: seq<Note>, i: nat)
    requires i < |notes|
    ensures MessagesFor(notes, notes[i].to) != []
  {
    if i > 0 {
      assert notes[1..][i - 1] == notes[i];
      SomethingForEach(notes[1..], i - 1);
    }
  }

  lemma WhoReceives(st: State, op: Op, out: Output, id: SessionId)
    requires Emits(st, op, out) && !op.SelectSourceOp? && MessagesFor(out.notes, id) != []
    ensures id in WatchersIn(st, TenantOf(op))
  {
    match op
    case RegisterIngestOp(s, now) =>
      if !out.refused {
        CatalogsThenStateBringsTwo(out.notes, Apply(st, op)[s.tenant], SourceState(s.source, Announced(st, op).value),
                                   id);
      }
    case UnregisterIngestOp(s, replaced, now) =>
      if Owns(st, s) {
        var source := st[s.tenant].sources[s.source];
        var tenant := WithSource(st, s.tenant, s.source, source.(active := None, lastSeen := now))[s.tenant];
        if replaced {
          CatalogRoundBringsOne(out.notes, tenant, id);
        } else {
          CatalogsThenStateBringsTwo(out.notes, tenant, SourceState(s.source, Offline), id);
        }
      }
    case IngestEventOp(s, number, frame, now) =>
      EventFanOut(st, s, number, frame, now, out, id);
    case _ =>
  }

  lemma NotesForSelect(st: State, t: string, id: SessionId, name: string, out: Output, i: nat)
    requires Emits(st, SelectSourceOp(t, id, name), out) && i < |out.notes|
    ensures out.notes[i].to == id
  {}

  /** Every note of a critical section is addressed to a watch session of the same tenant. */
  lemma NotesStayInTenant(w: World, op: Op, out: Output, i: nat)
    requires WatchersLinked(w.server, w.boxes) && Scripted(w, op) && Emits(w.server, op, out) && i < |out.notes|
    ensures out.notes[i].to in w.boxes && w.boxes[out.notes[i].to].tenant == TenantOf(op)
  {
    hide Emits, MessagesFor;
    var id := out.notes[i].to;
    if op.SelectSourceOp? {
      NotesForSelect(w.server, op.tenantId, op.watcher, op.name, out, i);
    } else {
      SomethingForEach(out.notes, i);
      WhoReceives(w.server, op, out, id);
      assert id in WatchersIn(w.server, TenantOf(op));
    }
  }

  lemma LockedLinksTask(w: World, op: Op, out: Output)
    requires Linked(w) && Scripted(w, op) && Emits(w.server, op, out)
    ensures TaskLinked(BoxesAfter(w, op, out), PublishersAfter(w, op, out),
                       Task(TenantOf(op), out.evicted, out.notes, Fresh))
  {
    OutputFacts(w.server, op, out);
    if out.evicted.Some? {
      assert Owns(w.server, out.evicted.value);
    }
    forall i | 0 <= i < |out.notes|
      ensures out.notes[i].to in w.boxes && w.boxes[out.notes[i].to].tenant == TenantOf(op)
    {
      NotesStayInTenant(w, op, out, i);
    }
  }

  /** What a move makes of one watch session. */
  function NextBox(w: World, move: Move, id: SessionId): Box
    requires id in w.boxes && (move.Push? ==> move.task in w.pending && w.pending[move.task].notes != [])
  {
    var box := w.boxes[id];
    match move
    case Locked(_, op, _) => if op.UnregisterWatchOp? && op.watcher == id then box.(gone := true) else box
    case Check(k, _) => if HeadFor(w, k, id) && !Open(box) then Refused(box, w.pending[k].notes[0].body) else box
    case Push(k, _, chosen) => if HeadFor(w, k, id) then Pushed(box, w.pending[k].notes[0].body, chosen) else box
    case Shut(k, _) => if HeadFor(w, k, id) then box.(closed := true) else box
    case Greet(watcher, _, ok) => if watcher == id then Greeted(box, ok) else box
    case Fetch(watcher, _) => if watcher == id && box.queue != [] then Fetched(box) else box
    case Write(watcher, _, ok) => if watcher == id && box.inflight.Some? then Flushed(box, ok) else box
    case CloseWatch(watcher, _) => if watcher == id then box.(closed := true) else box
    case _ => box
  }

  /** The note the task is about to queue goes to this session. */
  predicate HeadFor(w: World, k: nat, id: SessionId) {
    k in w.pending && w.pending[k].notes != [] && w.pending[k].notes[0].to == id
  }

  lemma BoxMoves(w: World, move: Move, id: SessionId)
    requires id in w.boxes && Enabled(w, move)
    ensures id in Do(w, move).boxes && Do(w, move).boxes[id] == NextBox(w, move, id)
  {
    hide Emits, Apply, Refused, Taken, Flushed, Fetched;
  }

  lemma BoxesStay(w: World, move: Move)
    requires Enabled(w, move)
    ensures !move.Locked? ==> Do(w, move).boxes.Keys == w.boxes.Keys
    ensures w.boxes.Keys <= Do(w, move).boxes.Keys
  {
    hide Emits, Apply, Refused, Taken, Flushed, Fetched;
  }

  /** Sessions are never forgotten, never change their tenant, and never become unready. */
  lemma BoxPersists(w: World, move: Move, id: SessionId)
    requires id in w.boxes && Enabled(w, move)
    ensures id in Do(w, move).boxes
    ensures var before, after := w.boxes[id], Do(w, move).boxes[id];
            && after.tenant == before.tenant && (before.ready ==> after.ready)
            && (!move.Locked? ==> after.gone == before.gone)
  {
    BoxMoves(w, move, id);
    hide Do, Enabled;
  }

  lemma PublishersPersist(w: World, move: Move)
    requires Enabled(w, move)
    ensures forall id :: id in w.publishers ==>
              id in Do(w, move).publishers && Do(w, move).publishers[id].session == w.publishers[id].session
    ensures !move.Locked? ==>
              && Do(w, move).publishers.Keys == w.publishers.Keys
              && (forall id :: id in w.publishers ==> Do(w, move).publishers[id].live == w.publishers[id].live)
  {
    hide Emits, Apply, Refused, Taken, Flushed, Fetched;
  }

  /** A task after a move: it shrinks from the front, and has a stage only while it queues its first note. */
  predicate TaskAfter(w: World, before: Task, after: Task) {
    && after.tenant == before.tenant
    && (after.evict == before.evict || after.evict == None)
    && (after.notes == before.notes || (before.notes != [] && after.notes == before.notes[1..]))
    && (after.stage != Fresh ==>
        && after.notes == before.notes != [] && after.evict == before.evict
        && (before.stage == Fresh ==>
            before.evict.None? && (before.notes[0].to in w.boxes ==> w.boxes[before.notes[0].to].ready)))
  }

  /** A move leaves every task but its own alone. */
  lemma OtherTasksStay(w: World, move: Move, k: nat)
    requires Enabled(w, move) && k in w.pending
    requires move.Locked? || move.Evict? || move.Check? || move.Push? || move.Shut? ==> move.task != k
    ensures k in Do(w, move).pending && Do(w, move).pending[k] == w.pending[k]
  {
    hide Emits, Apply, Refused, Taken, Flushed, Fetched;
  }

  lemma OwnTask(w: World, move: Move)
    requires Enabled(w, move) && (move.Evict? || move.Check? || move.Push? || move.Shut?)
    requires TaskLinked(w.boxes, w.publishers, w.pending[move.task]) && move.task in Do(w, move).pending
    ensures TaskAfter(w, w.pending[move.task], Do(w, move).pending[move.task])
  {
    hide Emits, Apply, Refused, Taken, Flushed, Fetched;
  }

  lemma NewTask(w: World, move: Move)
    requires Enabled(w, move) && move.Locked?
    ensures move.task !in w.pending
    ensures move.task in Do(w, move).pending ==>
              Do(w, move).pending[move.task] == Task(TenantOf(move.op), move.out.evicted, move.out.notes, Fresh)
  {
    hide Emits, Apply;
  }

  lemma NoOtherTask(w: World, move: Move, k: nat)
    requires Enabled(w, move) && k in Do(w, move).pending
    ensures k in w.pending || (move.Locked? && k == move.task)
  {
    hide Emits, Apply, Refused, Taken, Flushed, Fetched;
  }

  lemma TasksMove(w: World, move: Move, k: nat)
    requires TasksLinked(w) && Enabled(w, move) && k in Do(w, move).pending
    ensures move.Locked? && k == move.task ==>
              Do(w, move).pending[k] == Task(TenantOf(move.op), move.out.evicted, move.out.notes, Fresh)
    ensures !(move.Locked? && k == move.task) ==> k in w.pending && TaskAfter(w, w.pending[k], Do(w, move).pending[k])
  {
    NoOtherTask(w, move, k);
    if move.Locked? && k == move.task {
      NewTask(w, move);
    } else if (move.Evict? || move.Check? || move.Push? || move.Shut?) && k == move.task {
      assert TaskLinked(w.boxes, w.publishers, w.pending[k]);
      OwnTask(w, move);
    } else {
      OtherTasksStay(w, move, k);
    }
    hide Do, Enabled;
  }

  lemma MoveLinksTask(w: World, move: Move, k: nat)
    requires Linked(w) && Enabled(w, move) && k in Do(w, move).pending
    ensures TaskLinked(Do(w, move).boxes, Do(w, move).publishers, Do(w, move).pending[k])
  {
    hide Emits, Apply, WellFiled, Collected, WatchersLinked, IngestsLinked;
    var w' := Do(w, move);
    TasksMove(w, move, k);
    PublishersPersist(w, move);
    BoxesStay(w, move);
    ServerMoves(w, move);
    hide Do;
    forall id | id in w.boxes
      ensures id in w'.boxes && w'.boxes[id].tenant == w.boxes[id].tenant && (w.boxes[id].ready ==> w'.boxes[id].ready)
    {
      BoxPersists(w, move, id);
    }
    if move.Locked? && k == move.task {
      LockedLinksTask(w, move.op, move.out);
    } else {
      assert TaskLinked(w.boxes, w.publishers, w.pending[k]);
      hide Enabled;
    }
  }

  lemma SessionMoveLinks(w: World, move: Move)
    requires WatchersLinked(w.server, w.boxes) && IngestsLinked(w.server, w.publishers)
    requires Enabled(w, move) && !move.Locked?
    ensures WatchersLinked(w.server, Do(w, move).boxes) && IngestsLinked(w.server, Do(w, move).publishers)
  {
    PublishersPersist(w, move);
    BoxesStay(w, move);
    var boxes := Do(w, move).boxes;
    forall id | id in w.boxes
      ensures boxes[id].tenant == w.boxes[id].tenant && boxes[id].gone == w.boxes[id].gone
      ensures w.boxes[id].ready ==> boxes[id].ready
    {
      BoxPersists(w, move, id);
    }
    hide Do, Enabled, Owns, WatchersIn;
  }

  lemma ServerMoves(w: World, move: Move)
    requires Enabled(w, move)
    ensures Do(w, move).server == if move.Locked? then Apply(w.server, move.op) else w.server
    ensures move.Locked? ==>
              && Do(w, move).boxes == BoxesAfter(w, move.op, move.out)
              && Do(w, move).publishers == PublishersAfter(w, move.op, move.out)
  {
    hide Emits, Apply, Refused, Taken, Flushed, Fetched, BoxesAfter, PublishersAfter;
  }

  lemma MoveLinks(w: World, move: Move)
    requires Linked(w)
    ensures Linked(Do(w, move))
  {
    if Enabled(w, move) {
      ServerMoves(w, move);
      forall k | k in Do(w, move).pending
        ensures TaskLinked(Do(w, move).boxes, Do(w, move).publishers, Do(w, move).pending[k])
      {
        MoveLinksTask(w, move, k);
      }
      if move.Locked? {
        StepFiles(w.server, move.op);
        StepCollects(w.server, move.op);
        OutputFacts(w.server, move.op, move.out);
        LockedLinksWatchers(w, move.op, move.out);
        LockedLinksIngests(w, move.op, move.out);
      } else {
        SessionMoveLinks(w, move);
      }
      hide Do, Apply, Emits, WellFiled, Collected, WatchersLinked, IngestsLinked;
    }
  }

  /**
   In every reachable world each registered watch session is filed under its own tenant, with a selection that is
   empty or names an existing source, and each active ingest session is one that still runs.
   */
  lemma {:induction false} AlwaysLinked(moves: seq<Move>)
    ensures Linked(Exec(moves))
  {
    if moves != [] {
      AlwaysLinked(moves[..|moves| - 1]);
      MoveLinks(Exec(moves[..|moves| - 1]), moves[|moves| - 1]);
    }
  }

  /** Hence a select request from a running watch loop always finds its tenant, and its own session in it. */
  lemma SelectFindsItsTenant(moves: seq<Move>, k: nat, t: string, id: SessionId, name: string, out: Output)
    requires Enabled(Exec(moves), Locked(k, SelectSourceOp(t, id, name), out))
    ensures t in Exec(moves).server && id in Exec(moves).server[t].watchers
  {
    AlwaysLinked(moves);
    assert id in WatchersIn(Exec(moves).server, t);
  }

  /** A watcher that has selected nothing is sent no event: no source has the empty name. */
  lemma UnselectedHearNothing(moves: seq<Move>, k: nat, s: Ingest, number: uint64, frame: Frame, now: int, out: Output,
                              id: SessionId)
    requires Enabled(Exec(moves), Locked(k, IngestEventOp(s, number, frame, now), out))
    requires id in WatchersIn(Exec(moves).server, s.tenant) ==> WatchersIn(Exec(moves).server, s.tenant)[id] == ""
    ensures MessagesFor(out.notes, id) == []
  {
    AlwaysLinked(moves);
    EventFanOut(Exec(moves).server, s, number, frame, now, out, id);
  }
}
