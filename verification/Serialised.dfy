/**
 Runs in which every critical section finds the notifications of the previous ones dispatched. In such runs what a
 watcher receives is a faithful replica of the server's state.
 */
module Serialised {
  import opened Basics
  import opened Protocol
  import opened ServerModel
  import opened Runs
  import opened Worlds
  import opened WorldInvariants
  import opened Delivery

  ghost predicate SerialisedRun(moves: seq<Move>) {
    && Happens(moves)
    && (forall i :: 0 <= i < |moves| && moves[i].Locked? ==> Exec(moves[..i]).pending == map[])
  }

  /** `notes` is the work that is still undelivered; there is never more than one unfinished task. */
  ghost predicate Backlog(w: World, notes: seq<Note>) {
    || (w.pending == map[] && notes == [])
    || (exists k :: k in w.pending && w.pending.Keys == {k} && w.pending[k].notes == notes)
  }

  ghost predicate Orderly(w: World, move: Move) {
    move.Locked? ==> w.pending == map[]
  }

  function Target(w: World, k: nat): Option<Box> {
    if k in w.pending && w.pending[k].notes != [] && w.pending[k].notes[0].to in w.boxes
    then Some(w.boxes[w.pending[k].notes[0].to]) else None
  }

  /** The move is done with the first note of its task: the session was inactive, took it, or is closed now. */
  predicate Finishes(w: World, move: Move) {
    match move
    case Check(k, _) => Target(w, k) == None || !Open(Target(w, k).value)
    case Push(k, _, _) => Target(w, k).Some? && !Overflows(Target(w, k).value)
    case Shut(_, _) => true
    case _ => false
  }

  lemma TaskShrinks(w: World, move: Move, k: nat)
    requires Enabled(w, move) && k in w.pending && w.pending.Keys == {k} && !move.Locked?
    ensures var notes' := if Finishes(w, move) then w.pending[k].notes[1..] else w.pending[k].notes;
            Backlog(Do(w, move), notes')
    ensures Finishes(w, move) ==> move.task == k && w.pending[k].notes != []
  {
    hide Emits, Apply, Refused, Taken, Fetched, Flushed;
    var w' := Do(w, move);
    assert w'.pending == map[] || w'.pending.Keys == {k};
  }

  /** How a move changes the backlog. */
  lemma BacklogAfter(w: World, move: Move, notes: seq<Note>) returns (notes': seq<Note>)
    requires Enabled(w, move) && Orderly(w, move) && Backlog(w, notes)
    ensures Backlog(Do(w, move), notes')
    ensures move.Locked? ==> notes == [] && notes' == move.out.notes
    ensures !move.Locked? && Finishes(w, move) ==> HeadOf(w, move, notes) && notes' == notes[1..]
    ensures !move.Locked? && !Finishes(w, move) ==> notes' == notes
  {
    hide Emits, Apply, Refused, Taken, Fetched, Flushed;
    var w' := Do(w, move);
    if move.Locked? {
      notes' := move.out.notes;
      assert w'.pending == Post(map[], move.task, Task(TenantOf(move.op), move.out.evicted, move.out.notes, Fresh));
      assert w'.pending != map[] ==> w'.pending.Keys == {move.task};
    } else if w.pending == map[] {
      notes' := notes;
    } else {
      var k :| k in w.pending && w.pending.Keys == {k} && w.pending[k].notes == notes;
      TaskShrinks(w, move, k);
      notes' := if Finishes(w, move) then notes[1..] else notes;
    }
  }

  /** The task the move works on is the one that owes `notes`. */
  predicate HeadOf(w: World, move: Move, notes: seq<Note>) {
    && (move.Check? || move.Push? || move.Shut?)
    && move.task in w.pending && w.pending[move.task].notes == notes && notes != []
  }

  lemma SerialisedPrefix(moves: seq<Move>)
    requires moves != [] && SerialisedRun(moves)
    ensures var before, last := moves[..|moves| - 1], moves[|moves| - 1];
            SerialisedRun(before) && Enabled(Exec(before), last) && Orderly(Exec(before), last)
  {
    assert forall i :: 0 <= i < |moves| - 1 ==> moves[..|moves| - 1][..i] == moves[..i];
  }

  lemma OneTaskPending(moves: seq<Move>) returns (notes: seq<Note>)
    requires SerialisedRun(moves)
    ensures Backlog(Exec(moves), notes)
  {
    if moves == [] {
      notes := [];
    } else {
      SerialisedPrefix(moves);
      var before := moves[..|moves| - 1];
      var earlier := OneTaskPending(before);
      notes := BacklogAfter(Exec(before), moves[|moves| - 1], earlier);
    }
  }

  lemma SerialisedUpTo(moves: seq<Move>, i: nat)
    requires SerialisedRun(moves) && i <= |moves|
    ensures SerialisedRun(moves[..i])
  {
    assert forall j :: 0 <= j < i ==> moves[..i][..j] == moves[..j];
  }

  /** Serialised runs are one dispatcher at a time, for every session, and so deliver without gaps. */
  lemma SerialisedIsOneAtATime(moves: seq<Move>, id: SessionId)
    requires SerialisedRun(moves)
    ensures OneAtATime(moves, id)
  {
    forall i, k | 0 <= i < |moves| && Starts(Exec(moves[..i]), moves[i], id)
      ensures !Between(Exec(moves[..i]), k, id)
    {
      SerialisedUpTo(moves, i);
      var notes := OneTaskPending(moves[..i]);
      assert moves[i].task in Exec(moves[..i]).pending;
    }
  }

  lemma SerialisedHasNoGap(moves: seq<Move>, id: SessionId)
    requires SerialisedRun(moves) && id in Exec(moves).boxes
    ensures var box := Exec(moves).boxes[id];
            GapFree(box.offered) && box.accepted <= AllBodies(box.offered)
  {
    SerialisedIsOneAtATime(moves, id);
    OneAtATimeHasNoGap(moves, id);
  }

  // ---------------------------------------------------------------- what a watcher reconstructs

  datatype Replica = Replica(source: string, online: bool, lastStatus: Option<Live>)

  /** A watcher starts over at each snapshot, and applies state changes and status events of the snapshot's source. */
  function Update(replica: Option<Replica>, body: Message): Option<Replica> {
    match body
    case Snapshot(source, online, lastStatus) => Some(Replica(source, online, lastStatus))
    case SourceState(source, transition) =>
      if replica.Some? && replica.value.source == source
      then Some(replica.value.(online := transition != Offline)) else replica
    case Event(live) =>
      if replica.Some? && replica.value.source == live.source && live.kind.Status?
      then Some(replica.value.(lastStatus := Some(live))) else replica
    case _ => replica
  }

  function UpdateAll(replica: Option<Replica>, bodies: seq<Message>): Option<Replica>
    decreases |bodies|
  {
    if bodies == [] then replica else UpdateAll(Update(replica, bodies[0]), bodies[1..])
  }

  lemma {:induction false} UpdateAllConcat(replica: Option<Replica>, a: seq<Message>, b: seq<Message>)
    ensures UpdateAll(replica, a + b) == UpdateAll(UpdateAll(replica, a), b)
    decreases |a|
  {
    if a == [] {
      assert a + b == b;
    } else {
      assert (a + b)[1..] == a[1..] + b;
      UpdateAllConcat(Update(replica, a[0]), a[1..], b);
    }
  }

  /** The replica a watcher has after reading everything its queue took and everything still on its way. */
  function ReplicaOf(box: Box, notes: seq<Note>, id: SessionId): Option<Replica> {
    UpdateAll(None, box.accepted + MessagesFor(notes, id))
  }

  function Truth(sources: map<string, Source>, name: string): Option<Replica> {
    if name in sources then Some(Replica(name, sources[name].active.Some?, sources[name].lastStatus)) else None
  }

  function SourcesIn(st: State, t: string): map<string, Source> {
    TenantOrNew(st, t).sources
  }

  ghost predicate ReplicaSettled(w: World, notes: seq<Note>, id: SessionId) {
    id in w.boxes && !w.boxes[id].closed && id in WatchersIn(w.server, w.boxes[id].tenant) ==>
      var selected := WatchersIn(w.server, w.boxes[id].tenant)[id];
      selected != "" ==> ReplicaOf(w.boxes[id], notes, id) == Truth(SourcesIn(w.server, w.boxes[id].tenant), selected)
  }

  lemma UpdateOne(replica: Option<Replica>, a: Message)
    ensures UpdateAll(replica, [a]) == Update(replica, a)
  {
    assert [a][1..] == [];
  }

  lemma UpdateTwo(replica: Option<Replica>, a: Message, b: Message)
    ensures UpdateAll(replica, [a, b]) == Update(Update(replica, a), b)
  {
    assert [a, b] == [a] + [b];
    UpdateAllConcat(replica, [a], [b]);
    UpdateOne(replica, a);
    UpdateOne(Update(replica, a), b);
  }

  /** A catalog followed by a state change carries the online flag of the changed source and leaves all else. */
  lemma StateCarriesTheTruth(sources: map<string, Source>, name: string, changed: string, source: Source,
                             bodies: seq<Message>, transition: Transition)
    requires name in sources
    requires source.active.Some? <==> transition != Offline
    requires changed in sources ==> source.lastStatus == sources[changed].lastStatus
    requires |bodies| == 2 && bodies[0].Catalog? && bodies[1] == SourceState(changed, transition)
    ensures UpdateAll(Truth(sources, name), bodies) == Truth(sources[changed := source], name)
  {
    assert bodies == [bodies[0], bodies[1]];
    UpdateTwo(Truth(sources, name), bodies[0], bodies[1]);
  }

  lemma RegisterCarriesTheTruth(st: State, s: Ingest, now: int, out: Output, id: SessionId, name: string)
    requires Emits(st, RegisterIngestOp(s, now), out)
    requires id in WatchersIn(st, s.tenant) && name in SourcesIn(st, s.tenant)
    ensures UpdateAll(Truth(SourcesIn(st, s.tenant), name), MessagesFor(out.notes, id)) ==
            Truth(SourcesIn(RegisterIngest(st, s, now), s.tenant), name)
  {
    if out.refused {
      RefusalChangesNothing(st, s, now);
    } else {
      var after, transition := RegisterIngest(st, s, now), Announced(st, RegisterIngestOp(s, now)).value;
      CatalogsThenStateBringsTwo(out.notes, after[s.tenant], SourceState(s.source, transition), id);
      StateCarriesTheTruth(SourcesIn(st, s.tenant), name, s.source, after[s.tenant].sources[s.source],
                           MessagesFor(out.notes, id), transition);
    }
  }

  lemma UnregisterCarriesTheTruth(st: State, s: Ingest, now: int, out: Output, id: SessionId, name: string)
    requires Emits(st, UnregisterIngestOp(s, false, now), out)
    requires id in WatchersIn(st, s.tenant) && name in SourcesIn(st, s.tenant)
    ensures UpdateAll(Truth(SourcesIn(st, s.tenant), name), MessagesFor(out.notes, id)) ==
            Truth(SourcesIn(UnregisterIngest(st, s, now), s.tenant), name)
  {
    if Owns(st, s) {
      var source := st[s.tenant].sources[s.source].(active := None, lastSeen := now);
      var tenant := WithSource(st, s.tenant, s.source, source)[s.tenant];
      CatalogsThenStateBringsTwo(out.notes, tenant, SourceState(s.source, Offline), id);
      StateCarriesTheTruth(SourcesIn(st, s.tenant), name, s.source, source, MessagesFor(out.notes, id), Offline);
    }
  }

  lemma EventCarriesTheTruth(st: State, s: Ingest, number: uint64, frame: Frame, now: int, out: Output, id: SessionId)
    requires Emits(st, IngestEventOp(s, number, frame, now), out)
    requires id in WatchersIn(st, s.tenant) && WatchersIn(st, s.tenant)[id] in SourcesIn(st, s.tenant)
    ensures var name := WatchersIn(st, s.tenant)[id];
            UpdateAll(Truth(SourcesIn(st, s.tenant), name), MessagesFor(out.notes, id)) ==
            Truth(SourcesIn(IngestEvent(st, s, number, frame, now), s.tenant), name)
  {
    var name := WatchersIn(st, s.tenant)[id];
    EventFanOut(st, s, number, frame, now, out, id);
    UpdateOne(Truth(SourcesIn(st, s.tenant), name), Event(Sanitize(s.source, frame)));
  }

  lemma UpdateThree(replica: Option<Replica>, a: Message, b: Message, c: Message)
    ensures UpdateAll(replica, [a, b, c]) == Update(Update(Update(replica, a), b), c)
  {
    assert [a, b, c] == [a] + [b, c];
    UpdateAllConcat(replica, [a], [b, c]);
    UpdateOne(replica, a);
    UpdateTwo(Update(replica, a), b, c);
  }

  /** A successful select resets the replica to the truth about the new selection; nobody else is told. */
  lemma SelectCarriesTheTruth(st: State, t: string, id: SessionId, name: string, out: Output, replica: Option<Replica>,
                              other: SessionId)
    requires WellFiled(st) && Emits(st, SelectSourceOp(t, id, name), out)
    ensures UpdateAll(replica, MessagesFor(out.notes, id)) ==
            if Known(st, t, name) then Truth(SourcesIn(st, t), name) else replica
    ensures other != id ==> MessagesFor(out.notes, other) == []
    ensures SourcesIn(Apply(st, SelectSourceOp(t, id, name)), t) == SourcesIn(st, t)
  {
    SelectReplies(st, t, id, name, out, other);
    hide Emits, MessagesFor, UpdateAll;
    if Known(st, t, name) {
      assert Filed(t, st[t]);
      UpdateThree(replica, SelectResult(true, name, ""), out.notes[1].body, SnapshotOf(st[t].sources[name]));
    } else {
      UpdateOne(replica, SelectResult(false, name, "source_not_found"));
    }
  }

  /** What one critical section of the watcher's tenant sends it turns the old truth into the new one. */
  lemma NotesCarryTheTruth(st: State, op: Op, out: Output, id: SessionId)
    requires WellFiled(st) && AsCalled(op) && Emits(st, op, out) && !op.SelectSourceOp?
    requires id in WatchersIn(st, TenantOf(op)) && WatchersIn(st, TenantOf(op))[id] != ""
    requires id in WatchersIn(Apply(st, op), TenantOf(op))
    ensures var t := TenantOf(op);
            var name := WatchersIn(st, t)[id];
            UpdateAll(Truth(SourcesIn(st, t), name), MessagesFor(out.notes, id)) ==
            Truth(SourcesIn(Apply(st, op), t), name)
  {
    var name := WatchersIn(st, TenantOf(op))[id];
    match op
    case RegisterIngestOp(s, now) => RegisterCarriesTheTruth(st, s, now, out, id, name);
    case UnregisterIngestOp(s, _, now) => UnregisterCarriesTheTruth(st, s, now, out, id, name);
    case IngestEventOp(s, number, frame, now) => EventCarriesTheTruth(st, s, number, frame, now, out, id);
    case _ =>
  }

  lemma LockedSettlesReplica(w: World, k: nat, op: Op, out: Output, id: SessionId)
    requires Linked(w) && Enabled(w, Locked(k, op, out))
    requires ReplicaSettled(w, [], id)
    ensures ReplicaSettled(Do(w, Locked(k, op, out)), out.notes, id)
  {
    hide Emits, Apply, WellFiled, Collected;
    var after, boxes := Apply(w.server, op), BoxesAfter(w, op, out);
    if id in boxes && !boxes[id].closed && id in WatchersIn(after, boxes[id].tenant) {
      var t := boxes[id].tenant;
      WatchersAfter(w.server, op, t);
      OutputFacts(w.server, op, out);
      if WatchersIn(after, t)[id] != "" {
        assert id in w.boxes && boxes[id].accepted == w.boxes[id].accepted;
        var log := w.boxes[id].accepted;
        assert log + MessagesFor([], id) == log;
        UpdateAllConcat(None, log, MessagesFor(out.notes, id));
        if TenantOf(op) != t {
          ApplyElsewhere(w.server, op, t);
          NothingElsewhere(w, op, out, t, id);
        } else if op.SelectSourceOp? {
          SelectCarriesTheTruth(w.server, t, op.watcher, op.name, out, UpdateAll(None, log), id);
        } else {
          NotesCarryTheTruth(w.server, op, out, id);
        }
      }
    }
  }

  lemma NothingElsewhere(w: World, op: Op, out: Output, t: string, id: SessionId)
    requires WatchersLinked(w.server, w.boxes) && Scripted(w, op) && Emits(w.server, op, out)
    requires id in WatchersIn(w.server, t) && t != TenantOf(op)
    ensures MessagesFor(out.notes, id) == []
  {
    forall i | 0 <= i < |out.notes|
      ensures Recipients(out.notes)[i] != id
    {
      NotesStayInTenant(w, op, out, i);
    }
    NothingForStrangers(out.notes, id);
  }

  /** The relation BacklogAfter establishes for moves outside the lock. */
  predicate Advances(w: World, move: Move, notes: seq<Note>, notes': seq<Note>) {
    if Finishes(w, move) then HeadOf(w, move, notes) && notes' == notes[1..] else notes' == notes
  }

  /** For an open and ready session, what it took and what is on its way change places and nothing more. */
  lemma NothingIsLost(w: World, move: Move, notes: seq<Note>, notes': seq<Note>, id: SessionId)
    requires Enabled(w, move) && !move.Locked? && Advances(w, move, notes, notes')
    requires id in w.boxes && w.boxes[id].ready
    requires id in Do(w, move).boxes && !Do(w, move).boxes[id].closed
    ensures !w.boxes[id].closed
    ensures Do(w, move).boxes[id].accepted + MessagesFor(notes', id) == w.boxes[id].accepted + MessagesFor(notes, id)
  {
    var log, log' := w.boxes[id].accepted, Do(w, move).boxes[id].accepted;
    if w.boxes[id].closed {
      ClosedStays(w, move, id);
    }
    OnlyTakesAccept(w, move, id);
    if move.Shut? && HeadFor(w, move.task, id) {
      ShutCloses(w, move, id);
    }
    hide Emits, Do;
    if Finishes(w, move) && notes[0].to == id {
      assert log' == log + [notes[0].body];
      assert (log + [notes[0].body]) + MessagesFor(notes[1..], id) == log + MessagesFor(notes, id);
    } else {
      assert log' == log;
    }
  }

  lemma MoveSettlesReplica(w: World, move: Move, notes: seq<Note>, notes': seq<Note>, id: SessionId)
    requires Linked(w) && Enabled(w, move) && !move.Locked? && Advances(w, move, notes, notes')
    requires ReplicaSettled(w, notes, id)
    ensures ReplicaSettled(Do(w, move), notes', id)
  {
    ServerMoves(w, move);
    BoxesStay(w, move);
    if id in w.boxes {
      BoxPersists(w, move, id);
      if w.boxes[id].ready && !Do(w, move).boxes[id].closed {
        NothingIsLost(w, move, notes, notes', id);
      }
      hide Emits, Apply, Do, Enabled, UpdateAll, Truth;
      assert id in WatchersIn(w.server, w.boxes[id].tenant) && !w.boxes[id].ready ==>
        WatchersIn(w.server, w.boxes[id].tenant)[id] == "";
    }
  }

  /**
   Replica from snapshot plus stream. In every serialised run, a watcher that was never closed and has selected a
   source, and that replays its queue in order, holds the source's last status and online flag exactly - up to what is
   still being dispatched, and therefore exactly whenever nothing is.
   */
  lemma {:induction false} WatcherHoldsReplica(moves: seq<Move>, id: SessionId) returns (notes: seq<Note>)
    requires SerialisedRun(moves)
    ensures Backlog(Exec(moves), notes)
    ensures ReplicaSettled(Exec(moves), notes, id)
  {
    if moves == [] {
      notes := [];
    } else {
      var before, last := moves[..|moves| - 1], moves[|moves| - 1];
      SerialisedPrefix(moves);
      AlwaysLinked(before);
      var earlier := WatcherHoldsReplica(before, id);
      notes := BacklogAfter(Exec(before), last, earlier);
      if last.Locked? {
        LockedSettlesReplica(Exec(before), last.task, last.op, last.out, id);
      } else {
        MoveSettlesReplica(Exec(before), last, earlier, notes, id);
      }
    }
  }

  lemma ReplicaIsExactWhenQuiet(moves: seq<Move>, id: SessionId)
    requires SerialisedRun(moves) && Exec(moves).pending == map[]
    requires id in Exec(moves).boxes && !Exec(moves).boxes[id].closed && !Exec(moves).boxes[id].gone
    ensures var w := Exec(moves);
            var t := w.boxes[id].tenant;
            && id in WatchersIn(w.server, t)
            && (var selected := WatchersIn(w.server, t)[id];
                selected != "" ==>
                  && Known(w.server, t, selected)
                  && (var source := w.server[t].sources[selected];
                      UpdateAll(None, w.boxes[id].accepted) ==
                      Some(Replica(selected, source.active.Some?, source.lastStatus))))
  {
    var notes := WatcherHoldsReplica(moves, id);
    AlwaysLinked(moves);
    assert Exec(moves).boxes[id].accepted + MessagesFor([], id) == Exec(moves).boxes[id].accepted;
  }
}
