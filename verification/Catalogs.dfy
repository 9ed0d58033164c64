/** In serialised runs the last catalog sent or queued to each open watcher lists the tenant's sources as they are. */
module Catalogs {
  import opened Basics
  import opened Protocol
  import opened ServerModel
  import opened Runs
  import opened Worlds
  import opened WorldInvariants
  import opened Delivery
  import opened Serialised

  /**
   Registration, greeting and readiness of a watch session as one step: no critical section runs while a session is
   registered but has neither received its first catalog nor failed to.
   */
  ghost predicate Settled(w: World) {
    forall id :: id in w.boxes && !w.boxes[id].gone && w.boxes[id].writing ==> w.boxes[id].ready
  }

  ghost predicate PromptRun(moves: seq<Move>) {
    && SerialisedRun(moves)
    && (forall i :: 0 <= i < |moves| && moves[i].Locked? ==> Settled(Exec(moves[..i])))
  }

  /** The catalog agrees with these sources, apart from when each was last seen, and marks this selection. */
  ghost predicate Shows(body: Message, sources: map<string, Source>, selected: string) {
    body.Catalog? && body.current == selected && Lists(body.sources, sources)
  }

  lemma CatalogShows(body: Message, tenant: Tenant, current: string)
    requires CatalogOf(body, tenant, current) && WellNamed(tenant.sources)
    ensures Shows(body, tenant.sources, current)
  {
    CatalogLists(body, tenant, current);
  }

  lemma FiledIsNamed(st: State, t: string)
    requires WellFiled(st)
    ensures WellNamed(SourcesIn(st, t))
  {
    if t in st {
      assert Filed(t, st[t]);
    }
  }

  function LastCatalog(log: seq<Message>): Option<Message> {
    if log == [] then None
    else if log[|log| - 1].Catalog? then Some(log[|log| - 1])
    else LastCatalog(log[..|log| - 1])
  }

  lemma LastCatalogAppend(log: seq<Message>, body: Message)
    ensures LastCatalog(log + [body]) == if body.Catalog? then Some(body) else LastCatalog(log)
  {
    assert (log + [body])[..|log|] == log;
  }

  function Read(box: Box, notes: seq<Note>, id: SessionId): seq<Message> {
    box.direct + box.accepted + MessagesFor(notes, id)
  }

  /** The last catalog on its way to an open watcher - or the greeting it will get - shows the tenant as it is. */
  ghost predicate CatalogSettled(w: World, notes: seq<Note>, id: SessionId) {
    id in w.boxes && !w.boxes[id].closed && id in WatchersIn(w.server, w.boxes[id].tenant) ==>
      var box := w.boxes[id];
      var sources := SourcesIn(w.server, box.tenant);
      && (box.ready ==>
          && LastCatalog(Read(box, notes, id)).Some?
          && Shows(LastCatalog(Read(box, notes, id)).value, sources, WatchersIn(w.server, box.tenant)[id]))
      && (!box.ready && box.writing ==>
          Shows(box.greeting, sources, "") && box.accepted == [] && box.direct == [] && MessagesFor(notes, id) == [])
  }

  ghost predicate LogShows(log: seq<Message>, sources: map<string, Source>, selected: string) {
    LastCatalog(log).Some? && Shows(LastCatalog(log).value, sources, selected)
  }

  lemma StateRoundShows(notes: seq<Note>, tenant: Tenant, body: Message, id: SessionId, log: seq<Message>)
    requires CatalogsThenState(notes, tenant, body) && !body.Catalog? && id in tenant.watchers
    requires WellNamed(tenant.sources)
    ensures LogShows(log + MessagesFor(notes, id), tenant.sources, tenant.watchers[id])
  {
    CatalogsThenStateBringsTwo(notes, tenant, body, id);
    var bodies := MessagesFor(notes, id);
    assert log + bodies == (log + [bodies[0]]) + [body];
    LastCatalogAppend(log + [bodies[0]], body);
    LastCatalogAppend(log, bodies[0]);
    CatalogShows(bodies[0], tenant, tenant.watchers[id]);
  }

  lemma RegisterShows(st: State, s: Ingest, now: int, out: Output, id: SessionId, log: seq<Message>)
    requires WellFiled(st) && Emits(st, RegisterIngestOp(s, now), out) && id in WatchersIn(st, s.tenant)
    requires LogShows(log, SourcesIn(st, s.tenant), WatchersIn(st, s.tenant)[id])
    ensures var after := RegisterIngest(st, s, now);
            LogShows(log + MessagesFor(out.notes, id), SourcesIn(after, s.tenant), WatchersIn(st, s.tenant)[id])
  {
    if out.refused {
      RefusalChangesNothing(st, s, now);
      assert log + MessagesFor([], id) == log;
    } else {
      FiledIsNamed(st, s.tenant);
      var body := SourceState(s.source, Announced(st, RegisterIngestOp(s, now)).value);
      StateRoundShows(out.notes, RegisterIngest(st, s, now)[s.tenant], body, id, log);
    }
  }

  lemma UnregisterShows(st: State, s: Ingest, now: int, out: Output, id: SessionId, log: seq<Message>)
    requires WellFiled(st) && Emits(st, UnregisterIngestOp(s, false, now), out) && id in WatchersIn(st, s.tenant)
    requires LogShows(log, SourcesIn(st, s.tenant), WatchersIn(st, s.tenant)[id])
    ensures var after := UnregisterIngest(st, s, now);
            LogShows(log + MessagesFor(out.notes, id), SourcesIn(after, s.tenant), WatchersIn(st, s.tenant)[id])
  {
    if Owns(st, s) {
      FiledIsNamed(st, s.tenant);
      var source := st[s.tenant].sources[s.source].(active := None, lastSeen := now);
      var tenant := WithSource(st, s.tenant, s.source, source)[s.tenant];
      StateRoundShows(out.notes, tenant, SourceState(s.source, Offline), id, log);
    } else {
      assert log + MessagesFor([], id) == log;
    }
  }

  lemma EventShows(st: State, s: Ingest, number: uint64, frame: Frame, now: int, out: Output, id: SessionId,
                   log: seq<Message>)
    requires Emits(st, IngestEventOp(s, number, frame, now), out) && id in WatchersIn(st, s.tenant)
    requires LogShows(log, SourcesIn(st, s.tenant), WatchersIn(st, s.tenant)[id])
    ensures var after := IngestEvent(st, s, number, frame, now);
            LogShows(log + MessagesFor(out.notes, id), SourcesIn(after, s.tenant), WatchersIn(st, s.tenant)[id])
  {
    EventFanOut(st, s, number, frame, now, out, id);
    if MessagesFor(out.notes, id) == [] {
      assert log + MessagesFor(out.notes, id) == log;
    } else {
      LastCatalogAppend(log, MessagesFor(out.notes, id)[0]);
    }
    if Accepts(st, s, number) {
      var after := IngestEvent(st, s, number, frame, now);
      SameListing(LastCatalog(log + MessagesFor(out.notes, id)).value.sources, st[s.tenant].sources, s.source,
                  after[s.tenant].sources[s.source]);
    }
  }

  /** The answer to a selection ends with a catalog for the new selection, and a snapshot. */
  lemma AnswerShows(log: seq<Message>, result: Message, catalog: Message, snapshot: Message, tenant: Tenant,
                    name: string)
    requires CatalogOf(catalog, tenant, name) && !snapshot.Catalog? && WellNamed(tenant.sources)
    ensures LogShows(log + [result, catalog, snapshot], tenant.sources, name)
  {
    assert log + [result, catalog, snapshot] == ((log + [result]) + [catalog]) + [snapshot];
    LastCatalogAppend((log + [result]) + [catalog], snapshot);
    LastCatalogAppend(log + [result], catalog);
    CatalogShows(catalog, tenant, name);
  }

  lemma SelectShows(st: State, t: string, id: SessionId, name: string, out: Output, other: SessionId, log: seq<Message>)
    requires WellFiled(st) && Emits(st, SelectSourceOp(t, id, name), out) && other in WatchersIn(st, t)
    requires LogShows(log, SourcesIn(st, t), WatchersIn(st, t)[other])
    ensures var selected := if other == id && Known(st, t, name) then name else WatchersIn(st, t)[other];
            LogShows(log + MessagesFor(out.notes, other), SourcesIn(st, t), selected)
  {
    SelectReplies(st, t, id, name, out, other);
    FiledIsNamed(st, t);
    hide Emits, MessagesFor, WellNamed, CatalogOf, LastCatalog, Shows;
    if other != id {
      assert log + [] == log;
    } else if Known(st, t, name) {
      AnswerShows(log, SelectResult(true, name, ""), out.notes[1].body, SnapshotOf(st[t].sources[name]), st[t], name);
    } else {
      LastCatalogAppend(log, SelectResult(false, name, "source_not_found"));
    }
  }

  /** Every critical section that changes a listing or a selection tells the watchers it concerns. */
  lemma NotesKeepShowing(st: State, op: Op, out: Output, id: SessionId, log: seq<Message>)
    requires WellFiled(st) && AsCalled(op) && Emits(st, op, out)
    requires var t := TenantOf(op); id in WatchersIn(st, t) && id in WatchersIn(Apply(st, op), t)
    requires op.RegisterWatchOp? ==> op.watcher != id
    requires LogShows(log, SourcesIn(st, TenantOf(op)), WatchersIn(st, TenantOf(op))[id])
    ensures var t := TenantOf(op);
            LogShows(log + MessagesFor(out.notes, id), SourcesIn(Apply(st, op), t), WatchersIn(Apply(st, op), t)[id])
  {
    WatchersAfter(st, op, TenantOf(op));
    match op
    case RegisterIngestOp(s, now) => RegisterShows(st, s, now, out, id, log);
    case UnregisterIngestOp(s, _, now) => UnregisterShows(st, s, now, out, id, log);
    case IngestEventOp(s, number, frame, now) => EventShows(st, s, number, frame, now, out, id, log);
    case SelectSourceOp(t, watcher, name) => SelectShows(st, t, watcher, name, out, id, log);
    case RegisterWatchOp(_, _) => assert log + MessagesFor([], id) == log;
    case UnregisterWatchOp(_, _) => assert log + MessagesFor([], id) == log;
  }

  lemma GreetingShows(st: State, t: string, id: SessionId, out: Output)
    requires WellFiled(st) && Emits(st, RegisterWatchOp(t, id), out)
    ensures out.reply.Some? && out.notes == []
    ensures Shows(out.reply.value, SourcesIn(Apply(st, RegisterWatchOp(t, id)), t), "")
  {
    FiledIsNamed(st, t);
    CatalogShows(out.reply.value, TenantOrNew(st, t), "");
    assert SourcesIn(Apply(st, RegisterWatchOp(t, id)), t) == SourcesIn(st, t);
  }

  lemma LockedSettlesCatalog(w: World, k: nat, op: Op, out: Output, id: SessionId)
    requires Linked(w) && Settled(w) && Enabled(w, Locked(k, op, out))
    requires CatalogSettled(w, [], id)
    ensures CatalogSettled(Do(w, Locked(k, op, out)), out.notes, id)
  {
    hide Emits, Apply, WellFiled, Collected, LastCatalog, Shows;
    var after, boxes := Apply(w.server, op), BoxesAfter(w, op, out);
    OutputFacts(w.server, op, out);
    if id in boxes && !boxes[id].closed && id in WatchersIn(after, boxes[id].tenant) {
      var t := boxes[id].tenant;
      WatchersAfter(w.server, op, t);
      if op.RegisterWatchOp? && op.watcher == id {
        GreetingShows(w.server, t, id, out);
      } else if boxes[id].ready {
        var log := w.boxes[id].direct + w.boxes[id].accepted;
        assert log + MessagesFor([], id) == log;
        if TenantOf(op) != t {
          ApplyElsewhere(w.server, op, t);
          NothingElsewhere(w, op, out, t, id);
          assert log + MessagesFor(out.notes, id) == log;
        } else {
          NotesKeepShowing(w.server, op, out, id, log);
        }
      }
    }
  }

  lemma GreetSettlesCatalog(w: World, move: Move, notes: seq<Note>, id: SessionId)
    requires WatchersLinked(w.server, w.boxes) && Enabled(w, move) && move.Greet? && move.watcher == id
    requires CatalogSettled(w, notes, id)
    ensures CatalogSettled(Do(w, move), notes, id)
  {
    hide Emits, Apply;
    var box := w.boxes[id];
    assert [box.greeting] + [] + [] == [] + [box.greeting];
    LastCatalogAppend([], box.greeting);
  }

  /** Before it is greeted, a session is sent nothing and changes nothing but its readiness. */
  lemma NotReadyMoves(w: World, move: Move, id: SessionId)
    requires Linked(w) && Enabled(w, move) && !move.Locked? && id in w.boxes && !w.boxes[id].ready
    requires !(move.Greet? && move.watcher == id) && BoxSound(w.boxes[id])
    ensures id in Do(w, move).boxes && Do(w, move).boxes[id] == w.boxes[id]
  {
    BoxMoves(w, move, id);
    if (move.Push? || move.Shut?) && HeadFor(w, move.task, id) {
      HeadIsReady(w, move, id);
    }
    hide Do, Emits, Apply;
  }

  lemma ReadyStays(w: World, move: Move, id: SessionId)
    requires Enabled(w, move) && !move.Locked? && id in w.boxes && w.boxes[id].ready
    ensures id in Do(w, move).boxes
    ensures var box, box' := w.boxes[id], Do(w, move).boxes[id];
            box'.ready && box'.direct == box.direct && box'.tenant == box.tenant
  {
    BoxMoves(w, move, id);
    hide Do, Emits, Apply;
  }

  lemma ReadStays(box: Box, box': Box, notes: seq<Note>, notes': seq<Note>, id: SessionId)
    requires box'.direct == box.direct
    requires box'.accepted + MessagesFor(notes', id) == box.accepted + MessagesFor(notes, id)
    ensures Read(box', notes', id) == Read(box, notes, id)
  {
    hide MessagesFor;
    assert Read(box', notes', id) == box'.direct + (box'.accepted + MessagesFor(notes', id));
    assert Read(box, notes, id) == box.direct + (box.accepted + MessagesFor(notes, id));
  }

  lemma StaysReady(w: World, move: Move, notes: seq<Note>, notes': seq<Note>, id: SessionId)
    requires Linked(w) && Enabled(w, move) && !move.Locked? && Advances(w, move, notes, notes')
    requires id in w.boxes && w.boxes[id].ready && CatalogSettled(w, notes, id)
    requires Do(w, move).server == w.server
    ensures CatalogSettled(Do(w, move), notes', id)
  {
    ReadyStays(w, move, id);
    var box, box' := w.boxes[id], Do(w, move).boxes[id];
    if !box'.closed {
      NothingIsLost(w, move, notes, notes', id);
      ReadStays(box, box', notes, notes', id);
      hide Do, Enabled, Emits, Apply, Linked, Advances, LastCatalog, Shows, MessagesFor, Read;
    }
  }

  lemma SessionSettlesCatalog(w: World, move: Move, notes: seq<Note>, notes': seq<Note>, id: SessionId)
    requires Linked(w) && Enabled(w, move) && !move.Locked? && Advances(w, move, notes, notes')
    requires id in w.boxes ==> BoxSound(w.boxes[id])
    requires CatalogSettled(w, notes, id)
    ensures CatalogSettled(Do(w, move), notes', id)
  {
    ServerMoves(w, move);
    BoxesStay(w, move);
    if id in w.boxes {
      if move.Greet? && move.watcher == id {
        GreetSettlesCatalog(w, move, notes, id);
      } else if !w.boxes[id].ready {
        NotReadyMoves(w, move, id);
        if notes' != notes {
          assert MessagesFor(notes, id) == [] ==> MessagesFor(notes', id) == [];
        }
      } else {
        StaysReady(w, move, notes, notes', id);
      }
    }
  }

  lemma PromptPrefix(moves: seq<Move>)
    requires moves != [] && PromptRun(moves)
    ensures var before := moves[..|moves| - 1];
            PromptRun(before) && (moves[|moves| - 1].Locked? ==> Settled(Exec(before)))
  {
    SerialisedPrefix(moves);
    assert forall i :: 0 <= i < |moves| - 1 ==> moves[..|moves| - 1][..i] == moves[..i];
  }

  /**
   Catalog convergence. In every such run, for every open and ready watcher, the last catalog it was sent or has queued
   (or is still being dispatched) lists exactly the tenant's current sources, by name, display name and online flag,
   and marks the watcher's own current selection.
   */
  lemma {:induction false} CatalogsConverge(moves: seq<Move>, id: SessionId) returns (notes: seq<Note>)
    requires PromptRun(moves)
    ensures Backlog(Exec(moves), notes) && CatalogSettled(Exec(moves), notes, id)
  {
    if moves == [] {
      notes := [];
    } else {
      var before, last := moves[..|moves| - 1], moves[|moves| - 1];
      SerialisedPrefix(moves);
      PromptPrefix(moves);
      AlwaysLinked(before);
      var earlier := CatalogsConverge(before, id);
      notes := BacklogAfter(Exec(before), last, earlier);
      if last.Locked? {
        LockedSettlesCatalog(Exec(before), last.task, last.op, last.out, id);
      } else {
        if id in Exec(before).boxes {
          DeliveryIsBounded(before, id);
        }
        SessionSettlesCatalog(Exec(before), last, earlier, notes, id);
      }
    }
  }

  lemma CatalogIsExactWhenQuiet(moves: seq<Move>, id: SessionId)
    requires PromptRun(moves) && Exec(moves).pending == map[]
    requires id in Exec(moves).boxes
    requires var box := Exec(moves).boxes[id]; box.ready && !box.closed && !box.gone
    ensures var w := Exec(moves);
            var t := w.boxes[id].tenant;
            var last := LastCatalog(w.boxes[id].direct + w.boxes[id].accepted);
            && t in w.server && id in w.server[t].watchers
            && last.Some? && last.value.Catalog? && last.value.current == w.server[t].watchers[id]
            && (var entries, sources := last.value.sources, w.server[t].sources;
                && (forall n :: n in sources ==> exists i :: 0 <= i < |entries| && entries[i].name == n)
                && (forall i, j :: 0 <= i < j < |entries| ==> entries[i].name != entries[j].name)
                && (forall i :: 0 <= i < |entries| ==>
                    && entries[i].name in sources
                    && (entries[i].online <==> sources[entries[i].name].active.Some?)
                    && entries[i].display == (if sources[entries[i].name].display == "" then entries[i].name
                                              else sources[entries[i].name].display)))
  {
    var notes := CatalogsConverge(moves, id);
    AlwaysLinked(moves);
    var w := Exec(moves);
    var box := w.boxes[id];
    assert id in WatchersIn(w.server, box.tenant);
    assert box.direct + box.accepted + MessagesFor([], id) == box.direct + box.accepted;
  }

  // ---------------------------------------------------------------- catalogs and history

  /** The critical sections of a run, in lock order. */
  function Sections(moves: seq<Move>): seq<Op> {
    if moves == [] then []
    else
      var before, last := Sections(moves[..|moves| - 1]), moves[|moves| - 1];
      if last.Locked? then before + [last.op] else before
  }

  lemma {:induction false} ServerIsHistory(moves: seq<Move>)
    requires Happens(moves)
    ensures Exec(moves).server == After(Sections(moves))
    ensures forall op :: op in Sections(moves) ==> AsCalled(op)
  {
    if moves != [] {
      var before, last := moves[..|moves| - 1], moves[|moves| - 1];
      assert forall i :: 0 <= i < |before| ==> before[..i] == moves[..i];
      assert moves[..|before|] == before;
      ServerIsHistory(before);
      ServerMoves(Exec(before), last);
      if last.Locked? {
        assert Sections(moves)[..|Sections(before)|] == Sections(before);
        assert AsCalled(last.op);
      }
    }
  }

  /**
   What the last catalog of an open watcher says, in terms of the run alone: each entry is for a source of the tenant,
   is online exactly if the last announcement about it was not OFFLINE, and carries the display name of the session
   announced last.
   */
  lemma CatalogTellsHistory(moves: seq<Move>, id: SessionId, i: nat)
    requires PromptRun(moves) && Exec(moves).pending == map[]
    requires id in Exec(moves).boxes
    requires var box := Exec(moves).boxes[id]; box.ready && !box.closed && !box.gone
    requires var last := LastCatalog(Exec(moves).boxes[id].direct + Exec(moves).boxes[id].accepted);
             last.Some? && last.value.Catalog? && i < |last.value.sources|
    ensures var box := Exec(moves).boxes[id];
            var entry := LastCatalog(box.direct + box.accepted).value.sources[i];
            var trail := Trail(Sections(moves), box.tenant, entry.name);
            && trail != []
            && (entry.online <==> trail[|trail| - 1].transition != Offline)
            && entry.display == (if trail[|trail| - 1].session.display == "" then entry.name
                                 else trail[|trail| - 1].session.display)
  {
    CatalogIsExactWhenQuiet(moves, id);
    ServerIsHistory(moves);
    var box := Exec(moves).boxes[id];
    hide Exec, After, PromptRun, SerialisedRun, Happens;
    var entry := LastCatalog(box.direct + box.accepted).value.sources[i];
    SourcesAreHistory(Sections(moves), box.tenant, entry.name);
  }
}
