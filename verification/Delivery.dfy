/**
 Delivery to one watcher over all interleavings: what its queue holds and has taken, when it can miss a message and
 when it can take one after a miss, and what still happens once it is closed.
 */
module Delivery {
  import opened Protocol
  import opened ServerModel
  import opened Worlds
  import opened WorldInvariants

  /** The messages the queue took, in order. */
  function Took(offered: seq<Attempt>): seq<Message> {
    if offered == [] then []
    else
      var last := offered[|offered| - 1];
      Took(offered[..|offered| - 1]) + (if last.taken then [last.body] else [])
  }

  lemma TookSnoc(offered: seq<Attempt>, a: Attempt)
    ensures Took(offered + [a]) == Took(offered) + (if a.taken then [a.body] else [])
  {
    assert (offered + [a])[..|offered|] == offered;
  }

  function InFlight(box: Box): seq<Message> {
    if box.inflight.Some? then [box.inflight.value] else []
  }

  /**
   At most 128 messages wait. What the queue took is a subsequence of what was dispatched since the session became
   ready; while the writer runs it is what was sent, what is being written and what waits, in this order.
   */
  ghost predicate BoxSound(box: Box) {
    && |box.queue| <= QUEUE
    && box.accepted == Took(box.offered)
    && (box.writing ==> box.sent + InFlight(box) + box.queue == box.accepted)
    && box.sent <= box.accepted
    && (box.inflight.Some? ==> box.writing && box.ready)
    && (!box.writing && box.ready ==> box.closed)
    && (!box.ready ==> box.offered == [] && box.direct == [] && box.sent == [])
    && (box.ready ==> box.direct == [box.greeting])
  }

  lemma RefusedKeepsSound(box: Box, body: Message)
    requires BoxSound(box)
    ensures BoxSound(Refused(box, body))
  {
    TookSnoc(box.offered, Attempt(body, false));
  }

  lemma TakenKeepsSound(box: Box, body: Message)
    requires BoxSound(box) && box.ready && |box.queue| < QUEUE
    ensures BoxSound(Taken(box, body))
  {
    TookSnoc(box.offered, Attempt(body, true));
  }

  lemma FetchedKeepsSound(box: Box)
    requires BoxSound(box) && box.ready && box.writing && box.queue != [] && box.inflight.None?
    ensures BoxSound(Fetched(box))
  {
    assert box.queue == [box.queue[0]] + box.queue[1..];
  }

  lemma FlushedKeepsSound(box: Box, ok: bool)
    requires BoxSound(box) && box.inflight.Some?
    ensures BoxSound(Flushed(box, ok))
  {
    assert box.sent + [box.inflight.value] + box.queue == box.accepted;
  }

  lemma OthersKeepSound(box: Box, ok: bool)
    requires BoxSound(box)
    ensures !box.ready && box.writing ==> BoxSound(Greeted(box, ok))
    ensures BoxSound(box.(gone := true))
    ensures box.ready ==> BoxSound(box.(closed := true))
  {}

  lemma NewSessions(w: World, move: Move, id: SessionId)
    requires Enabled(w, move) && id !in w.boxes && id in Do(w, move).boxes
    ensures move.Locked? && move.op.RegisterWatchOp? && move.op.watcher == id && move.out.reply.Some?
    ensures Do(w, move).boxes[id] == NewBox(move.op.tenantId, move.out.reply.value)
  {
    hide Emits, Apply, Refused, Taken, Flushed, Fetched;
  }

  /** A task queues its first note only for a session that is ready. */
  lemma HeadIsReady(w: World, move: Move, id: SessionId)
    requires Linked(w) && Enabled(w, move) && (move.Push? || move.Shut?) && HeadFor(w, move.task, id)
    ensures id in w.boxes && w.boxes[id].ready
  {
    assert TaskLinked(w.boxes, w.publishers, w.pending[move.task]);
  }

  lemma NextBoxSound(w: World, move: Move, id: SessionId)
    requires Enabled(w, move) && id in w.boxes && BoxSound(w.boxes[id])
    requires (move.Push? || move.Shut?) && HeadFor(w, move.task, id) ==> w.boxes[id].ready
    ensures BoxSound(NextBox(w, move, id))
  {
    var box := w.boxes[id];
    OthersKeepSound(box, move.Greet? && move.ok);
    hide Do, BoxSound, Emits, Apply, Refused, Taken, Fetched, Flushed, Greeted;
    match move
    case Check(k, _) => if HeadFor(w, k, id) { RefusedKeepsSound(box, w.pending[k].notes[0].body); }
    case Push(k, _, chosen) =>
      if HeadFor(w, k, id) {
        RefusedKeepsSound(box, w.pending[k].notes[0].body);
        if Fits(box, chosen) {
          TakenKeepsSound(box, w.pending[k].notes[0].body);
        }
      }
    case Fetch(watcher, _) => if watcher == id { FetchedKeepsSound(box); }
    case Write(watcher, _, ok) => if watcher == id { FlushedKeepsSound(box, ok); }
    case _ =>
  }

  lemma MoveKeepsBoxSound(w: World, move: Move, id: SessionId)
    requires Linked(w) && Enabled(w, move) && id in w.boxes && BoxSound(w.boxes[id])
    ensures id in Do(w, move).boxes && BoxSound(Do(w, move).boxes[id])
  {
    hide Do, BoxSound, Linked;
    BoxMoves(w, move, id);
    if (move.Push? || move.Shut?) && HeadFor(w, move.task, id) {
      HeadIsReady(w, move, id);
    }
    NextBoxSound(w, move, id);
  }

  /** Bounded delivery, in every interleaving. */
  lemma {:induction false} DeliveryIsBounded(moves: seq<Move>, id: SessionId)
    requires id in Exec(moves).boxes
    ensures BoxSound(Exec(moves).boxes[id])
  {
    var before, last := moves[..|moves| - 1], moves[|moves| - 1];
    AlwaysLinked(before);
    if id in Exec(before).boxes {
      DeliveryIsBounded(before, id);
      if Enabled(Exec(before), last) {
        MoveKeepsBoxSound(Exec(before), last, id);
      }
    } else {
      NewSessions(Exec(before), last, id);
    }
  }

  // ---------------------------------------------------------------- missed messages

  predicate Missed(box: Box) {
    exists i :: 0 <= i < |box.offered| && !box.offered[i].taken
  }

  /** Some goroutine has found the session's queue full and not closed the session yet. */
  predicate Owed(w: World, id: SessionId) {
    exists k :: k in w.pending && HeadFor(w, k, id) && w.pending[k].stage == Full
  }

  lemma FullStays(w: World, move: Move, k: nat, id: SessionId)
    requires Linked(w) && Enabled(w, move) && !(move.Shut? && move.task == k)
    requires k in w.pending && HeadFor(w, k, id) && w.pending[k].stage == Full
    ensures k in Do(w, move).pending && HeadFor(Do(w, move), k, id) && Do(w, move).pending[k].stage == Full
  {
    assert TaskLinked(w.boxes, w.publishers, w.pending[k]);
    hide Do, Emits, Apply;
    OtherTasksStay(w, move, k);
  }

  lemma OverflowIsOwed(w: World, move: Move, id: SessionId)
    requires Enabled(w, move) && move.Push? && HeadFor(w, move.task, id) && Overflows(w.boxes[id])
    ensures Owed(Do(w, move), id)
  {
    hide Emits, Apply, Refused, Taken;
    var w' := Do(w, move);
    assert w'.pending[move.task].stage == Full && HeadFor(w', move.task, id);
  }

  lemma MissesExtend(box: Box, body: Message)
    ensures Missed(Taken(box, body)) <==> Missed(box)
    ensures Missed(box) ==> Missed(Refused(box, body))
    ensures !box.ready ==> Refused(box, body) == box
  {
    var longer := box.offered + [Attempt(body, true)];
    assert forall i :: 0 <= i < |box.offered| ==> longer[i] == box.offered[i];
    if Missed(box) {
      var i :| 0 <= i < |box.offered| && !box.offered[i].taken;
      assert !longer[i].taken && !(box.offered + [Attempt(body, false)])[i].taken;
    }
  }

  ghost predicate MissSound(w: World, id: SessionId) {
    id in w.boxes && Missed(w.boxes[id]) ==> w.boxes[id].closed || Owed(w, id)
  }

  lemma ClosedStays(w: World, move: Move, id: SessionId)
    requires id in w.boxes && w.boxes[id].closed && Enabled(w, move)
    ensures id in Do(w, move).boxes && Do(w, move).boxes[id].closed
  {
    BoxMoves(w, move, id);
    hide Do, Enabled, Emits, Apply;
  }

  lemma ShutCloses(w: World, move: Move, id: SessionId)
    requires id in w.boxes && Enabled(w, move) && move.Shut? && HeadFor(w, move.task, id)
    ensures id in Do(w, move).boxes && Do(w, move).boxes[id].closed
  {
    BoxMoves(w, move, id);
  }

  /** A move makes an open session miss a message only by finding its queue full. */
  lemma FirstMiss(w: World, move: Move, id: SessionId)
    requires Enabled(w, move) && id in w.boxes && !w.boxes[id].closed && !Missed(w.boxes[id])
    requires id in Do(w, move).boxes && Missed(Do(w, move).boxes[id])
    ensures move.Push? && HeadFor(w, move.task, id) && Overflows(w.boxes[id])
  {
    BoxMoves(w, move, id);
    var box := w.boxes[id];
    assert forall body :: !Missed(Taken(box, body)) by {
      forall body
        ensures !Missed(Taken(box, body))
      {
        MissesExtend(box, body);
      }
    }
    assert forall b: Box :: b.offered == box.offered ==> !Missed(b);
    hide Do, Missed, Taken;
  }

  lemma MoveKeepsMissSound(w: World, move: Move, id: SessionId)
    requires Linked(w) && Enabled(w, move) && MissSound(w, id)
    ensures MissSound(Do(w, move), id)
  {
    var w' := Do(w, move);
    if id !in w.boxes {
      if id in w'.boxes {
        NewSessions(w, move, id);
      }
    } else if w.boxes[id].closed {
      ClosedStays(w, move, id);
    } else if Owed(w, id) {
      var k :| k in w.pending && HeadFor(w, k, id) && w.pending[k].stage == Full;
      if move.Shut? && move.task == k {
        ShutCloses(w, move, id);
      } else {
        FullStays(w, move, k, id);
      }
    } else if id in w'.boxes && Missed(w'.boxes[id]) {
      FirstMiss(w, move, id);
      OverflowIsOwed(w, move, id);
    }
  }

  /** In every interleaving a session that missed a message is closed, or about to be closed by whoever missed it. */
  lemma {:induction false} MissedMeansClosing(moves: seq<Move>, id: SessionId)
    ensures MissSound(Exec(moves), id)
  {
    if moves != [] {
      var before, last := moves[..|moves| - 1], moves[|moves| - 1];
      MissedMeansClosing(before, id);
      AlwaysLinked(before);
      if Enabled(Exec(before), last) {
        MoveKeepsMissSound(Exec(before), last, id);
      }
    }
  }

  // ---------------------------------------------------------------- gaps

  function AllBodies(offered: seq<Attempt>): (bodies: seq<Message>)
    ensures |bodies| == |offered|
  {
    seq(|offered|, i requires 0 <= i < |offered| => offered[i].body)
  }

  /** Nothing was taken after a miss. */
  predicate GapFree(offered: seq<Attempt>) {
    forall i, j :: 0 <= i < j < |offered| && offered[j].taken ==> offered[i].taken
  }

  lemma {:induction false} GapFreeIsPrefix(offered: seq<Attempt>)
    requires GapFree(offered)
    ensures Took(offered) <= AllBodies(offered)
    ensures (forall i :: 0 <= i < |offered| ==> offered[i].taken) ==> Took(offered) == AllBodies(offered)
  {
    if offered != [] {
      var before := offered[..|offered| - 1];
      GapFreeIsPrefix(before);
      assert AllBodies(offered) == AllBodies(before) + [offered[|offered| - 1].body];
      if offered[|offered| - 1].taken {
        assert forall i :: 0 <= i < |before| ==> before[i].taken;
      }
    }
  }

  /** While a session is open and owed no close, its queue has taken everything dispatched to it since it was ready. */
  lemma OpenMissesNothing(moves: seq<Move>, id: SessionId)
    requires id in Exec(moves).boxes && !Exec(moves).boxes[id].closed && !Owed(Exec(moves), id)
    ensures var box := Exec(moves).boxes[id]; box.accepted == AllBodies(box.offered)
  {
    MissedMeansClosing(moves, id);
    DeliveryIsBounded(moves, id);
    GapFreeIsPrefix(Exec(moves).boxes[id].offered);
  }

  /** This move puts a message into the session's queue. */
  ghost predicate Takes(w: World, move: Move, id: SessionId) {
    Enabled(w, move) && move.Push? && HeadFor(w, move.task, id) && id in w.boxes && Fits(w.boxes[id], move.chosen)
  }

  lemma MoveKeepsGaps(w: World, move: Move, id: SessionId)
    requires Linked(w) && Enabled(w, move) && id in w.boxes
    ensures id in Do(w, move).boxes
    ensures GapFree(Do(w, move).boxes[id].offered) <==>
            GapFree(w.boxes[id].offered) && (Takes(w, move, id) ==> !Missed(w.boxes[id]))
  {
    BoxMoves(w, move, id);
    var box, box' := w.boxes[id], Do(w, move).boxes[id];
    hide Do, Emits, Apply, Linked;
    if Takes(w, move, id) {
      var body := w.pending[move.task].notes[0].body;
      assert box' == Taken(box, body);
      TakenGaps(box, body);
    } else {
      assert box'.offered == box.offered
        || exists body :: box'.offered == box.offered + [Attempt(body, false)];
      hide Enabled, NextBox, Takes;
      assert forall i :: 0 <= i < |box.offered| ==> box'.offered[i] == box.offered[i];
    }
  }

  lemma TakenGaps(box: Box, body: Message)
    ensures GapFree(Taken(box, body).offered) <==> GapFree(box.offered) && !Missed(box)
  {
    var offered, longer := box.offered, Taken(box, body).offered;
    var n := |offered|;
    assert longer[n].taken && forall i :: 0 <= i < n ==> longer[i] == offered[i];
    if GapFree(longer) {
      forall i, j | 0 <= i < j < n && offered[j].taken
        ensures offered[i].taken
      {
        assert longer[j].taken ==> longer[i].taken;
      }
      forall i | 0 <= i < n
        ensures offered[i].taken
      {
        assert longer[i].taken;
      }
    }
  }

  /** The queue never took a message after the session had missed one. */
  ghost predicate Punctual(moves: seq<Move>, id: SessionId) {
    forall i :: 0 <= i < |moves| && Takes(Exec(moves[..i]), moves[i], id) ==> !Missed(Exec(moves[..i]).boxes[id])
  }

  lemma PunctualStep(moves: seq<Move>, id: SessionId)
    requires moves != []
    ensures var before, last := moves[..|moves| - 1], moves[|moves| - 1];
            Punctual(moves, id) <==>
              Punctual(before, id) && (Takes(Exec(before), last, id) ==> !Missed(Exec(before).boxes[id]))
  {
    hide Takes, Exec, Missed;
    var before, last := moves[..|moves| - 1], moves[|moves| - 1];
    assert forall i :: 0 <= i < |before| ==> before[..i] == moves[..i] && before[i] == moves[i];
    if Punctual(moves, id) {
      assert moves[..|before|] == before && moves[|before|] == last;
    }
  }

  lemma {:induction false} AbsentIsPunctual(moves: seq<Move>, id: SessionId)
    requires id !in Exec(moves).boxes
    ensures Punctual(moves, id)
  {
    if moves != [] {
      var before, last := moves[..|moves| - 1], moves[|moves| - 1];
      AbsentBefore(Exec(before), last, id);
      AbsentIsPunctual(before, id);
      PunctualStep(moves, id);
    }
  }

  lemma AbsentBefore(w: World, move: Move, id: SessionId)
    requires id !in Do(w, move).boxes
    ensures id !in w.boxes && !Takes(w, move, id)
  {
    if Enabled(w, move) {
      BoxesStay(w, move);
    }
  }

  /**
   When delivery has a gap: exactly if at some point of the run the queue took a message although the session had
   missed one before.
   */
  lemma {:induction false} GapsAreLateTakes(moves: seq<Move>, id: SessionId)
    requires id in Exec(moves).boxes
    ensures GapFree(Exec(moves).boxes[id].offered) <==> Punctual(moves, id)
  {
    var before, last := moves[..|moves| - 1], moves[|moves| - 1];
    AlwaysLinked(before);
    PunctualStep(moves, id);
    hide Punctual, GapFree, Missed, Linked;
    if id in Exec(before).boxes {
      GapsAreLateTakes(before, id);
      if Enabled(Exec(before), last) {
        MoveKeepsGaps(Exec(before), last, id);
      }
    } else {
      NewSessions(Exec(before), last, id);
      AbsentIsPunctual(before, id);
      NewIsGapFree(Exec(before), last, id);
    }
  }

  lemma NewIsGapFree(w: World, move: Move, id: SessionId)
    requires Enabled(w, move) && id !in w.boxes && id in Do(w, move).boxes
    ensures GapFree(Do(w, move).boxes[id].offered) && !Takes(w, move, id)
  {
    NewSessions(w, move, id);
  }

  /** The two races: a queue takes a message while a close is owed to the session, or after it was closed. */
  ghost predicate Races(w: World, move: Move, id: SessionId) {
    Takes(w, move, id) && (Owed(w, id) || w.boxes[id].closed)
  }

  /**
   Gap-free delivery: in every run without these races, what the queue took is a prefix of everything dispatched since
   the session became ready.
   */
  lemma NoRaceNoGap(moves: seq<Move>, id: SessionId)
    requires id in Exec(moves).boxes
    requires forall i :: 0 <= i < |moves| ==> !Races(Exec(moves[..i]), moves[i], id)
    ensures var box := Exec(moves).boxes[id];
            GapFree(box.offered) && box.accepted <= AllBodies(box.offered)
  {
    forall i | 0 <= i < |moves| && Takes(Exec(moves[..i]), moves[i], id)
      ensures !Missed(Exec(moves[..i]).boxes[id])
    {
      MissedMeansClosing(moves[..i], id);
    }
    GapsAreLateTakes(moves, id);
    DeliveryIsBounded(moves, id);
    GapFreeIsPrefix(Exec(moves).boxes[id].offered);
  }

  // ---------------------------------------------------------------- one dispatcher at a time

  /** The task has made its first select for the session and is not done with it. */
  predicate Between(w: World, k: nat, id: SessionId) {
    k in w.pending && HeadFor(w, k, id) && w.pending[k].stage != Fresh
  }

  /** The move starts queueing a message for the session. */
  ghost predicate Starts(w: World, move: Move, id: SessionId) {
    Enabled(w, move) && move.Check? && HeadFor(w, move.task, id)
  }

  /**
   A scheduling condition: nobody starts queueing a message for the session while somebody else is between. The session
   may be closed by anyone at any time.
   */
  ghost predicate OneAtATime(moves: seq<Move>, id: SessionId) {
    forall i, k :: 0 <= i < |moves| && Starts(Exec(moves[..i]), moves[i], id) ==> !Between(Exec(moves[..i]), k, id)
  }

  /** What it keeps: one task at most is between, and while it is past its first select only, nothing was missed. */
  ghost predicate Alone(w: World, id: SessionId) {
    && (forall j, k :: Between(w, j, id) && Between(w, k, id) ==> j == k)
    && (forall k :: Between(w, k, id) && w.pending[k].stage == Checked ==> id in w.boxes && !Missed(w.boxes[id]))
  }

  /** Where a task that is between comes from. */
  lemma BetweenComes(w: World, move: Move, k: nat, id: SessionId)
    requires Linked(w) && Enabled(w, move) && Between(Do(w, move), k, id)
    ensures Between(w, k, id) || (Starts(w, move, id) && move.task == k && id in w.boxes && Open(w.boxes[id]))
    ensures Between(w, k, id) && move.Push? && move.task == k ==> Do(w, move).pending[k].stage == Full
    ensures Between(w, k, id) && Do(w, move).pending[k].stage == Checked ==> w.pending[k].stage == Checked
    ensures !Between(w, k, id) ==> Do(w, move).boxes == w.boxes
  {
    NoOtherTask(w, move, k);
    if k in w.pending && !((move.Evict? || move.Check? || move.Push? || move.Shut?) && k == move.task) {
      OtherTasksStay(w, move, k);
      hide Do;
    } else {
      if k in w.pending {
        assert TaskLinked(w.boxes, w.publishers, w.pending[k]);
      }
      hide Emits, Apply, Refused, Taken, Fetched, Flushed;
    }
  }

  /** A session misses a message only when a task turned away, or past its first select, is handling it. */
  lemma MissNeedsHandler(w: World, move: Move, id: SessionId)
    requires Enabled(w, move) && id in w.boxes && !Missed(w.boxes[id])
    requires id in Do(w, move).boxes && Missed(Do(w, move).boxes[id])
    ensures Starts(w, move, id) || (move.Push? && Between(w, move.task, id))
  {
    BoxMoves(w, move, id);
    var box := w.boxes[id];
    assert forall b: Box :: b.offered == box.offered ==> !Missed(b);
    hide Do, Missed, Taken, Refused, Emits, Apply;
  }

  lemma MoveKeepsAlone(w: World, move: Move, id: SessionId)
    requires Linked(w) && Enabled(w, move) && MissSound(w, id) && Alone(w, id)
    requires Starts(w, move, id) ==> forall k :: !Between(w, k, id)
    ensures Alone(Do(w, move), id)
  {
    var w' := Do(w, move);
    hide Do, Linked;
    forall j, k | Between(w', j, id) && Between(w', k, id)
      ensures j == k
    {
      BetweenComes(w, move, j, id);
      BetweenComes(w, move, k, id);
    }
    forall k | Between(w', k, id) && w'.pending[k].stage == Checked
      ensures id in w'.boxes && !Missed(w'.boxes[id])
    {
      CheckedMissedNothing(w, move, k, id);
    }
  }

  lemma OwedIsBetween(w: World, id: SessionId)
    requires Owed(w, id)
    ensures exists k :: Between(w, k, id)
  {
    var k :| k in w.pending && HeadFor(w, k, id) && w.pending[k].stage == Full;
    assert Between(w, k, id);
  }

  lemma CheckedMissedNothing(w: World, move: Move, k: nat, id: SessionId)
    requires Linked(w) && Enabled(w, move) && MissSound(w, id) && Alone(w, id)
    requires Starts(w, move, id) ==> forall j :: !Between(w, j, id)
    requires Between(Do(w, move), k, id) && Do(w, move).pending[k].stage == Checked
    ensures id in Do(w, move).boxes && !Missed(Do(w, move).boxes[id])
  {
    BetweenComes(w, move, k, id);
    BoxesStay(w, move);
    hide Do, Linked;
    if Between(w, k, id) {
      if Missed(Do(w, move).boxes[id]) {
        MissNeedsHandler(w, move, id);
        assert false;
      }
    } else if Missed(w.boxes[id]) {
      OwedIsBetween(w, id);
      assert false;
    }
  }

  lemma OneAtATimePrefix(moves: seq<Move>, id: SessionId)
    requires OneAtATime(moves, id) && moves != []
    ensures var before, last := moves[..|moves| - 1], moves[|moves| - 1];
            OneAtATime(before, id) && (Starts(Exec(before), last, id) ==> forall k :: !Between(Exec(before), k, id))
  {
    hide Exec, Starts, Between;
    var before := moves[..|moves| - 1];
    assert forall i :: 0 <= i < |before| ==> before[..i] == moves[..i] && before[i] == moves[i];
    assert moves[..|before|] == before;
  }

  lemma {:induction false} AlwaysAlone(moves: seq<Move>, id: SessionId)
    requires OneAtATime(moves, id)
    ensures Alone(Exec(moves), id)
  {
    if moves != [] {
      var before, last := moves[..|moves| - 1], moves[|moves| - 1];
      OneAtATimePrefix(moves, id);
      AlwaysAlone(before, id);
      AlwaysLinked(before);
      MissedMeansClosing(before, id);
      if Enabled(Exec(before), last) {
        MoveKeepsAlone(Exec(before), last, id);
      }
    }
  }

  lemma {:induction false} OneAtATimeIsPunctual(moves: seq<Move>, id: SessionId)
    requires OneAtATime(moves, id)
    ensures Punctual(moves, id)
  {
    if moves != [] {
      var before, last := moves[..|moves| - 1], moves[|moves| - 1];
      OneAtATimePrefix(moves, id);
      OneAtATimeIsPunctual(before, id);
      AlwaysAlone(before, id);
      PunctualStep(moves, id);
      if Takes(Exec(before), last, id) {
        assert Between(Exec(before), last.task, id);
      }
    }
  }

  /**
   Gap-free delivery for a class of schedules: if no two goroutines queue messages for the session at the same time,
   what its queue took is a prefix of everything dispatched since it became ready - whoever closes it, and whenever.
   */
  lemma OneAtATimeHasNoGap(moves: seq<Move>, id: SessionId)
    requires id in Exec(moves).boxes && OneAtATime(moves, id)
    ensures var box := Exec(moves).boxes[id];
            GapFree(box.offered) && box.accepted <= AllBodies(box.offered)
  {
    OneAtATimeIsPunctual(moves, id);
    GapsAreLateTakes(moves, id);
    DeliveryIsBounded(moves, id);
    GapFreeIsPrefix(Exec(moves).boxes[id].offered);
  }

  // ---------------------------------------------------------------- after the close

  /** The goroutines that passed the first select for this session and have not reached the second. */
  ghost function Racing(w: World, id: SessionId): set<nat> {
    set k | k in w.pending && HeadFor(w, k, id) && w.pending[k].stage == Checked
  }

  /** `late` is a later view of the session `early`. */
  predicate Extends(early: Box, late: Box) {
    && late.tenant == early.tenant
    && early.accepted <= late.accepted && early.sent <= late.sent
    && (early.closed ==> late.closed && late.sent + InFlight(late) <= early.sent + InFlight(early))
  }

  lemma MoveExtends(w: World, move: Move, id: SessionId)
    requires Enabled(w, move) && id in w.boxes
    ensures id in Do(w, move).boxes && Extends(w.boxes[id], Do(w, move).boxes[id])
  {
    BoxMoves(w, move, id);
    hide Do, Emits, Apply, Refused, Taken, Fetched, Flushed, Greeted, Extends;
    BoxExtends(w.boxes[id]);
  }

  /** Whatever can happen to a session extends it. */
  lemma BoxExtends(box: Box)
    ensures Extends(box, box) && Extends(box, box.(gone := true)) && Extends(box, box.(closed := true))
    ensures forall body :: Extends(box, Refused(box, body)) && Extends(box, Taken(box, body))
    ensures forall ok :: Extends(box, Greeted(box, ok))
    ensures box.queue != [] && box.inflight.None? ==> Extends(box, Fetched(box))
    ensures box.inflight.Some? ==> forall ok :: Extends(box, Flushed(box, ok))
  {}

  lemma Fewer<T>(a: set<T>, b: set<T>)
    requires a <= b
    ensures |a| <= |b|
  {
    assert b == a + (b - a);
  }

  lemma StillRacing(w: World, move: Move, id: SessionId, k: nat)
    requires Enabled(w, move) && id in w.boxes && w.boxes[id].closed && k in Racing(Do(w, move), id)
    ensures k in Racing(w, id) && (Takes(w, move, id) ==> k != move.task)
  {
    NoOtherTask(w, move, k);
    if k in w.pending && !((move.Evict? || move.Check? || move.Push? || move.Shut?) && k == move.task) {
      OtherTasksStay(w, move, k);
      hide Do;
    } else {
      hide Emits, Apply, Refused, Taken, Fetched, Flushed;
    }
  }

  lemma TakeEndsRace(w: World, move: Move, id: SessionId)
    requires Enabled(w, move) && id in w.boxes && w.boxes[id].closed
    ensures Racing(Do(w, move), id) <= Racing(w, id)
    ensures Takes(w, move, id) ==> Racing(Do(w, move), id) <= Racing(w, id) - {move.task} && move.task in Racing(w, id)
  {
    forall k | k in Racing(Do(w, move), id)
      ensures k in Racing(w, id) && (Takes(w, move, id) ==> k != move.task)
    {
      StillRacing(w, move, id, k);
    }
    hide Do;
  }

  lemma OnlyTakesAccept(w: World, move: Move, id: SessionId)
    requires Enabled(w, move) && id in w.boxes
    ensures id in Do(w, move).boxes
    ensures Do(w, move).boxes[id].accepted ==
            w.boxes[id].accepted + (if Takes(w, move, id) then [w.pending[move.task].notes[0].body] else [])
  {
    BoxMoves(w, move, id);
    hide Do;
  }

  lemma ClosedMove(w: World, move: Move, id: SessionId)
    requires Enabled(w, move) && id in w.boxes && w.boxes[id].closed
    ensures id in Do(w, move).boxes
    ensures |Do(w, move).boxes[id].accepted| + |Racing(Do(w, move), id)| <= |w.boxes[id].accepted| + |Racing(w, id)|
  {
    OnlyTakesAccept(w, move, id);
    TakeEndsRace(w, move, id);
    var before, after := Racing(w, id), Racing(Do(w, move), id);
    Fewer(after, if Takes(w, move, id) then before - {move.task} else before);
  }

  /**
   A closed session stays closed. Of its queue it sends at most the message being written, and the queue takes at most
   one message from each goroutine that was between the two selects when it was closed.
   */
  lemma {:induction false} ClosedIsAbsorbing(moves: seq<Move>, i: nat, id: SessionId)
    requires i <= |moves| && id in Exec(moves[..i]).boxes
    ensures id in Exec(moves).boxes && Extends(Exec(moves[..i]).boxes[id], Exec(moves).boxes[id])
    ensures Exec(moves[..i]).boxes[id].closed ==>
              |Exec(moves).boxes[id].accepted| + |Racing(Exec(moves), id)| <=
              |Exec(moves[..i]).boxes[id].accepted| + |Racing(Exec(moves[..i]), id)|
  {
    if i < |moves| {
      var before, last := moves[..|moves| - 1], moves[|moves| - 1];
      assert before[..i] == moves[..i];
      ClosedIsAbsorbing(before, i, id);
      if Enabled(Exec(before), last) {
        MoveExtends(Exec(before), last, id);
        if Exec(before).boxes[id].closed {
          ClosedMove(Exec(before), last, id);
        }
      }
    } else {
      assert moves[..i] == moves;
    }
  }

  // ---------------------------------------------------------------- without interruption

  /** The moves of one enqueueEnvelope with nothing in between amount to `Offer`. */
  lemma OfferIsUninterrupted(w: World, k: nat, t: string, chosen: bool)
    requires k in w.pending && w.pending[k].tenant == t && w.pending[k].evict.None? && w.pending[k].stage == Fresh
    requires w.pending[k].notes != [] && w.pending[k].notes[0].to in w.boxes
    ensures var note := w.pending[k].notes[0];
            var box := w.boxes[note.to];
            var checked := Do(w, Check(k, t));
            Done(w, k, Offer(box, note.body)) ==
              if !Open(box) then checked
              else if !Overflows(box) then Do(checked, Push(k, t, chosen))
              else Do(Do(checked, Push(k, t, chosen)), Shut(k, t))
  {
    hide Emits, Apply;
  }
}
