/** Who gets closed: replaced ingest sessions always, watch sessions only for a reason. */
module Closing {
  import opened Basics
  import opened Protocol
  import opened ServerModel
  import opened Runs
  import opened Worlds
  import opened WorldInvariants
  import opened Delivery

  // ---------------------------------------------------------------- ingest sessions

  /** A session stops being the owner by leaving, or by a registration that names it as evicted. */
  lemma OwnershipLost(st: State, op: Op, out: Output, s: Ingest)
    requires Owns(st, s) && !Owns(Apply(st, op), s) && Emits(st, op, out)
    ensures (op.UnregisterIngestOp? && op.session == s) || (op.RegisterIngestOp? && out.evicted == Some(s))
  {
    match op
    case RegisterIngestOp(_, _) =>
    case UnregisterIngestOp(r, _, now) =>
      if Owns(st, r) {
        var source := st[r.tenant].sources[r.source].(active := None, lastSeen := now);
        CleanupKeepsOwners(WithSource(st, r.tenant, r.source, source), r.tenant, s.tenant, s.source);
      } else {
        CleanupKeepsOwners(st, r.tenant, s.tenant, s.source);
      }
    case UnregisterWatchOp(t, id) =>
      if t in st {
        CleanupKeepsOwners(st[t := st[t].(watchers := st[t].watchers - {id})], t, s.tenant, s.source);
      }
    case _ =>
  }

  predicate EvictionPending(w: World, s: Ingest) {
    exists k :: k in w.pending && w.pending[k].evict == Some(s)
  }

  /** If the session runs without being the owner of its source, it is closed or about to be closed by somebody. */
  predicate Remembered(w: World, id: SessionId) {
    id in w.publishers && w.publishers[id].live && !Owns(w.server, w.publishers[id].session) ==>
      w.publishers[id].closed || EvictionPending(w, w.publishers[id].session)
  }

  lemma LockedRemembers(w: World, move: Move, id: SessionId)
    requires Linked(w) && Enabled(w, move) && move.Locked? && Remembered(w, id)
    ensures Remembered(Do(w, move), id)
  {
    var op, out := move.op, move.out;
    var w' := Do(w, move);
    ServerMoves(w, move);
    OutputFacts(w.server, op, out);
    if op.RegisterIngestOp? && op.session.id == id {
      NewPublisher(w, op, out);
    } else if id in w.publishers && !Owns(w'.server, w.publishers[id].session) {
      var s := w.publishers[id].session;
      if Owns(w.server, s) {
        OwnershipLost(w.server, op, out, s);
        if op.RegisterIngestOp? {
          EvictionIsPending(w, move);
        }
      } else if EvictionPending(w, s) {
        EvictionStays(w, move, s);
      }
    }
  }

  lemma EvictionIsPending(w: World, move: Move)
    requires Enabled(w, move) && move.Locked? && move.out.evicted.Some?
    ensures EvictionPending(Do(w, move), move.out.evicted.value)
  {
    hide Emits, Apply;
    assert Do(w, move).pending[move.task].evict == move.out.evicted;
  }

  /** What is to be evicted stays so until somebody does it. */
  lemma EvictionStays(w: World, move: Move, s: Ingest)
    requires Linked(w) && Enabled(w, move) && EvictionPending(w, s)
    requires move.Evict? ==> w.pending[move.task].evict != Some(s)
    ensures EvictionPending(Do(w, move), s)
  {
    var k :| k in w.pending && w.pending[k].evict == Some(s);
    assert TaskLinked(w.boxes, w.publishers, w.pending[k]);
    OtherTasksStay(w, move, k);
    hide Do, Emits;
  }

  /** A session that has just registered owns its source, or was refused and is closed. */
  lemma NewPublisher(w: World, op: Op, out: Output)
    requires op.RegisterIngestOp? && Emits(w.server, op, out)
    ensures op.session.id in PublishersAfter(w, op, out)
    ensures var p := PublishersAfter(w, op, out)[op.session.id];
            p.session == op.session && p.live == !out.refused && p.closed == out.refused
    ensures !out.refused ==> Owns(Apply(w.server, op), op.session)
  {}

  lemma EvictCloses(w: World, move: Move)
    requires Linked(w) && Enabled(w, move) && move.Evict?
    ensures var id := w.pending[move.task].evict.value.id;
            id in Do(w, move).publishers && Do(w, move).publishers[id].closed
  {
    assert TaskLinked(w.boxes, w.publishers, w.pending[move.task]);
  }

  lemma OthersRemember(w: World, move: Move, id: SessionId)
    requires Linked(w) && Enabled(w, move) && !move.Locked? && Remembered(w, id)
    ensures Remembered(Do(w, move), id)
  {
    ServerMoves(w, move);
    PublishersPersist(w, move);
    if id in w.publishers {
      var s := w.publishers[id].session;
      if w.publishers[id].closed {
        ClosedIngestStays(w, move, id);
      } else if EvictionPending(w, s) {
        if move.Evict? && w.pending[move.task].evict == Some(s) {
          assert IngestsLinked(w.server, w.publishers);
          EvictCloses(w, move);
        } else {
          EvictionStays(w, move, s);
        }
      }
      hide Do, Emits, Enabled;
    }
  }

  lemma ClosedIngestStays(w: World, move: Move, id: SessionId)
    requires Enabled(w, move) && id in w.publishers && w.publishers[id].closed
    requires move.Locked? && move.op.RegisterIngestOp? ==> move.op.session.id != id
    ensures id in Do(w, move).publishers && Do(w, move).publishers[id].closed
  {
    hide Emits, Apply, Refused, Taken, Fetched, Flushed;
  }

  /**
   In every interleaving, each session that is running without being the active one - because it was replaced - is
   closed, or some goroutine is about to close it.
   */
  lemma ReplacedMeansClosing(moves: seq<Move>, id: SessionId)
    requires id in Exec(moves).publishers
    requires var p := Exec(moves).publishers[id]; p.live && !Owns(Exec(moves).server, p.session)
    ensures var w := Exec(moves);
            w.publishers[id].closed
            || exists k :: k in w.pending && w.pending[k].evict == Some(w.publishers[id].session)
  {
    AlwaysRemembered(moves, id);
  }

  lemma {:induction false} AlwaysRemembered(moves: seq<Move>, id: SessionId)
    ensures Remembered(Exec(moves), id)
  {
    if moves != [] {
      var before, last := moves[..|moves| - 1], moves[|moves| - 1];
      AlwaysRemembered(before, id);
      AlwaysLinked(before);
      if Enabled(Exec(before), last) {
        if last.Locked? {
          LockedRemembers(Exec(before), last, id);
        } else {
          OthersRemember(Exec(before), last, id);
        }
      }
    }
  }

  /** A closed session stays closed: session ids are never used twice. */
  lemma {:induction false} ClosedIngestIsAbsorbing(moves: seq<Move>, i: nat, id: SessionId)
    requires i <= |moves| && id in Exec(moves[..i]).publishers && Exec(moves[..i]).publishers[id].closed
    ensures id in Exec(moves).publishers && Exec(moves).publishers[id].closed
  {
    if i < |moves| {
      var before, last := moves[..|moves| - 1], moves[|moves| - 1];
      assert before[..i] == moves[..i];
      ClosedIngestIsAbsorbing(before, i, id);
      if Enabled(Exec(before), last) {
        ClosedIngestStays(Exec(before), last, id);
      }
    } else {
      assert moves[..i] == moves;
    }
  }

  /** A move closes an ingest session exactly if it evicts it, refuses it, or closes it itself. */
  lemma WhoClosesIngest(w: World, move: Move, id: SessionId)
    requires Linked(w) && Enabled(w, move) && (id in w.publishers ==> !w.publishers[id].closed)
    ensures id in Do(w, move).publishers && Do(w, move).publishers[id].closed <==>
            || (move.Evict? && w.pending[move.task].evict.value.id == id)
            || (move.Locked? && move.op.RegisterIngestOp? && move.op.session.id == id && move.out.refused)
            || (move.CloseIngest? && move.publisher == id)
  {
    if move.Evict? {
      assert TaskLinked(w.boxes, w.publishers, w.pending[move.task]);
    }
    hide Emits, Apply, Refused, Taken, Fetched, Flushed, Linked;
  }

  // ---------------------------------------------------------------- watch sessions

  /** What each step does to the closed flag: only a failed write sets it. */
  lemma ClosedFlag(box: Box)
    ensures forall body :: Refused(box, body).closed == box.closed && Taken(box, body).closed == box.closed
    ensures forall ok :: Greeted(box, ok).closed == box.closed
    ensures box.queue != [] ==> Fetched(box).closed == box.closed
    ensures box.inflight.Some? ==> forall ok :: Flushed(box, ok).closed == (box.closed || !ok)
  {}

  lemma NextBoxCloses(w: World, move: Move, id: SessionId)
    requires Enabled(w, move) && id in w.boxes && !w.boxes[id].closed
    ensures NextBox(w, move, id).closed <==>
            || (move.Shut? && HeadFor(w, move.task, id))
            || (move.Write? && move.watcher == id && !move.ok)
            || (move.CloseWatch? && move.watcher == id)
  {
    ClosedFlag(w.boxes[id]);
    hide Emits, Apply, Scripted, Refused, Taken, Fetched, Flushed, Greeted;
  }

  /**
   A move closes a watch session exactly if it is the close owed by whoever found its queue full, a write that fails, or
   a close by the session's own goroutines.
   */
  lemma WhoClosesWatch(w: World, move: Move, id: SessionId)
    requires Linked(w) && Enabled(w, move) && id in w.boxes && !w.boxes[id].closed
    ensures id in Do(w, move).boxes
    ensures Do(w, move).boxes[id].closed <==>
            || (move.Shut? && HeadFor(w, move.task, id))
            || (move.Write? && move.watcher == id && !move.ok)
            || (move.CloseWatch? && move.watcher == id)
  {
    BoxMoves(w, move, id);
    NextBoxCloses(w, move, id);
    hide Do, Enabled, Linked, NextBox;
  }

  lemma FullComes(w: World, move: Move, k: nat)
    requires Linked(w) && Enabled(w, move) && k in Do(w, move).pending && Do(w, move).pending[k].stage == Full
    ensures k in w.pending && Do(w, move).pending[k].notes == w.pending[k].notes
    ensures w.pending[k].stage == Full || (move.Push? && move.task == k)
  {
    NoOtherTask(w, move, k);
    if k in w.pending && !((move.Evict? || move.Check? || move.Push? || move.Shut? || move.Locked?) && k == move.task) {
      OtherTasksStay(w, move, k);
      hide Do;
    } else {
      if k in w.pending {
        assert TaskLinked(w.boxes, w.publishers, w.pending[k]);
      }
      hide Emits, Apply, Refused, Taken, Fetched, Flushed, Linked;
    }
  }

  /** A push that leaves its task owing a close has found the queue full. */
  lemma FullPush(w: World, move: Move)
    requires Enabled(w, move) && move.Push? && move.task in Do(w, move).pending
    requires Do(w, move).pending[move.task].stage == Full
    ensures var id := w.pending[move.task].notes[0].to;
            id in w.boxes && !w.boxes[id].closed && |w.boxes[id].queue| >= 128
  {
    hide Emits, Apply, Refused, Taken;
  }

  /** The close of a backpressured session is owed only if its queue held 128 messages when a message came. */
  lemma WhoOwesAClose(w: World, move: Move, id: SessionId)
    requires Linked(w) && Enabled(w, move) && id in w.boxes && !Owed(w, id) && Owed(Do(w, move), id)
    ensures move.Push? && HeadFor(w, move.task, id) && !w.boxes[id].closed && |w.boxes[id].queue| >= 128
  {
    var k :| k in Do(w, move).pending && HeadFor(Do(w, move), k, id) && Do(w, move).pending[k].stage == Full;
    FullComes(w, move, k);
    assert !(w.pending[k].stage == Full && HeadFor(w, k, id));
    FullPush(w, move);
    hide Do, Enabled, Linked;
  }

  /** A session is ready once it was greeted, and never before; its greeting is then the first thing on the wire. */
  lemma WhoGetsReady(w: World, move: Move, id: SessionId)
    requires Enabled(w, move) && id in w.boxes && !w.boxes[id].ready
    ensures id in Do(w, move).boxes
    ensures Do(w, move).boxes[id].ready <==> move.Greet? && move.watcher == id && move.ok
    ensures Do(w, move).boxes[id].ready ==> Do(w, move).boxes[id].direct == [w.boxes[id].greeting]
  {
    BoxMoves(w, move, id);
    hide Do, Emits, Apply;
  }
}
