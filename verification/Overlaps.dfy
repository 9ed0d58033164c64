/**
 Why some theorems speak of steps that do not overlap. Notifications are queued after the lock is released, and a full
 session is closed after its queue was found full: here are runs, from a new server, in which that shows.
 */
module Overlaps {
  import opened Basics
  import opened Protocol
  import opened ServerModel
  import opened Worlds
  import opened WorldInvariants
  import opened NonInterference
  import opened Delivery
  import opened Serialised

  // ---------------------------------------------------------------- building runs

  function TakenAll(box: Box, bodies: seq<Message>): Box
    decreases |bodies|
  {
    if bodies == [] then box else TakenAll(Taken(box, bodies[0]), bodies[1..])
  }

  lemma {:induction false} TakenAllFacts(box: Box, bodies: seq<Message>)
    ensures var box' := TakenAll(box, bodies);
            && box'.queue == box.queue + bodies && box'.accepted == box.accepted + bodies
            && box' == box.(queue := box'.queue, offered := box'.offered, accepted := box'.accepted)
    decreases |bodies|
  {
    if bodies != [] {
      TakenAllFacts(Taken(box, bodies[0]), bodies[1..]);
      assert bodies == [bodies[0]] + bodies[1..];
    }
  }

  function BodiesOf(notes: seq<Note>): (bodies: seq<Message>)
    ensures |bodies| == |notes|
  {
    seq(|notes|, i requires 0 <= i < |notes| => notes[i].body)
  }

  predicate AllTo(notes: seq<Note>, id: SessionId) {
    forall i :: 0 <= i < |notes| ==> notes[i].to == id
  }

  lemma StillSerialised(moves: seq<Move>, next: Move)
    requires SerialisedRun(moves) && Enabled(Exec(moves), next) && Orderly(Exec(moves), next)
    ensures SerialisedRun(moves + [next])
  {
    HappensNext(moves, next);
    hide Happens, Enabled, Exec;
    var longer := moves + [next];
    assert longer[..|moves|] == moves && longer[|moves|] == next;
    assert forall i :: 0 <= i < |moves| ==> longer[..i] == moves[..i] && longer[i] == moves[i];
  }

  /** The first select lets a message through. */
  lemma RunCheck(moves: seq<Move>, k: nat, id: SessionId) returns (longer: seq<Move>)
    requires Happens(moves)
    requires var w := Exec(moves);
             && k in w.pending && HeadFor(w, k, id) && w.pending[k].evict.None? && w.pending[k].stage == Fresh
             && id in w.boxes && Open(w.boxes[id])
    ensures Happens(longer)
    ensures var w := Exec(moves); Exec(longer) == w.(pending := w.pending[k := w.pending[k].(stage := Checked)])
  {
    hide Emits, Apply, Happens, Exec;
    var move := Check(k, Exec(moves).pending[k].tenant);
    HappensNext(moves, move);
    longer := moves + [move];
  }

  /** The first select turns a message away. */
  lemma RunRefusal(moves: seq<Move>, k: nat, id: SessionId) returns (longer: seq<Move>)
    requires Happens(moves)
    requires var w := Exec(moves);
             && k in w.pending && HeadFor(w, k, id) && w.pending[k].evict.None? && w.pending[k].stage == Fresh
             && id in w.boxes && !Open(w.boxes[id])
    ensures Happens(longer) && (SerialisedRun(moves) ==> SerialisedRun(longer))
    ensures var w := Exec(moves); Exec(longer) == Done(w, k, Refused(w.boxes[id], w.pending[k].notes[0].body))
  {
    hide Emits, Apply, Happens, Exec, SerialisedRun;
    var move := Check(k, Exec(moves).pending[k].tenant);
    HappensNext(moves, move);
    if SerialisedRun(moves) {
      StillSerialised(moves, move);
    }
    longer := moves + [move];
  }

  /** The second select takes a message, or finds the queue full. */
  lemma RunPush(moves: seq<Move>, k: nat, id: SessionId) returns (longer: seq<Move>)
    requires Happens(moves)
    requires var w := Exec(moves);
             && k in w.pending && HeadFor(w, k, id) && w.pending[k].stage == Checked
             && id in w.boxes && (Fits(w.boxes[id], true) || Overflows(w.boxes[id]))
    ensures Happens(longer)
    ensures var w := Exec(moves);
            var box, body := w.boxes[id], w.pending[k].notes[0].body;
            Exec(longer) ==
              if Fits(box, true) then Done(w, k, Taken(box, body))
              else w.(boxes := w.boxes[id := Refused(box, body)],
                      pending := w.pending[k := w.pending[k].(stage := Full)])
  {
    hide Emits, Apply, Happens, Exec;
    var move := Push(k, Exec(moves).pending[k].tenant, true);
    HappensNext(moves, move);
    longer := moves + [move];
  }

  /** The first note of a task is queued: two moves. */
  lemma DeliverOne(moves: seq<Move>, k: nat, id: SessionId) returns (longer: seq<Move>)
    requires Happens(moves)
    requires var w := Exec(moves);
             && k in w.pending && HeadFor(w, k, id) && w.pending[k].evict.None? && w.pending[k].stage == Fresh
             && id in w.boxes && Open(w.boxes[id]) && |w.boxes[id].queue| < QUEUE
    ensures Happens(longer)
    ensures var w := Exec(moves); Exec(longer) == Done(w, k, Taken(w.boxes[id], w.pending[k].notes[0].body))
  {
    hide Emits, Apply, Happens, Exec;
    longer := RunCheck(moves, k, id);
    longer := RunPush(longer, k, id);
  }

  lemma FirstNote(box: Box, notes: seq<Note>)
    requires notes != []
    ensures TakenAll(box, BodiesOf(notes)) == TakenAll(Taken(box, notes[0].body), BodiesOf(notes[1..]))
  {
    assert BodiesOf(notes)[1..] == BodiesOf(notes[1..]);
  }

  /** All notes of a task are queued, for one open session with room for them. */
  lemma {:induction false} DeliverAll(moves: seq<Move>, k: nat, t: string, notes: seq<Note>, id: SessionId)
    returns (longer: seq<Move>)
    requires Happens(moves) && notes != [] && AllTo(notes, id)
    requires var w := Exec(moves);
             && k in w.pending && w.pending[k] == Task(t, None, notes, Fresh)
             && id in w.boxes && Open(w.boxes[id]) && |w.boxes[id].queue| + |notes| <= QUEUE
    ensures Happens(longer)
    ensures var w := Exec(moves);
            Exec(longer) == w.(pending := w.pending - {k},
                               boxes := w.boxes[id := TakenAll(w.boxes[id], BodiesOf(notes))])
    decreases |notes|
  {
    hide Emits, Apply, Happens, Exec, Do;
    var w := Exec(moves);
    var box := Taken(w.boxes[id], notes[0].body);
    longer := DeliverOne(moves, k, id);
    FirstNote(w.boxes[id], notes);
    assert Exec(longer) == Done(w, k, box);
    if |notes| > 1 {
      longer := DeliverAll(longer, k, t, notes[1..], id);
      assert w.pending[k := Task(t, None, notes[1..], Fresh)] - {k} == w.pending - {k};
      assert w.boxes[id := box][id := TakenAll(box, BodiesOf(notes[1..]))] ==
             w.boxes[id := TakenAll(box, BodiesOf(notes[1..]))];
    } else {
      assert notes[1..] == [];
    }
  }

  /** A critical section without eviction runs, and its notes are pending. */
  lemma RunSection(moves: seq<Move>, k: nat, op: Op, out: Output) returns (longer: seq<Move>)
    requires Happens(moves) && k !in Exec(moves).pending
    requires Scripted(Exec(moves), op) && Emits(Exec(moves).server, op, out) && out.evicted.None?
    ensures Happens(longer)
    ensures SerialisedRun(moves) && Exec(moves).pending == map[] ==> SerialisedRun(longer)
    ensures var w := Exec(moves);
            Exec(longer) == World(Apply(w.server, op), BoxesAfter(w, op, out), PublishersAfter(w, op, out),
                                  if out.notes == [] then w.pending
                                  else w.pending[k := Task(TenantOf(op), None, out.notes, Fresh)])
  {
    HappensNext(moves, Locked(k, op, out));
    longer := moves + [Locked(k, op, out)];
    hide Emits, Apply, Happens, Exec, SerialisedRun;
    if SerialisedRun(moves) && Exec(moves).pending == map[] {
      StillSerialised(moves, Locked(k, op, out));
    }
    assert out.notes == [] ==> Exec(moves).pending - {k} == Exec(moves).pending;
  }

  /** The section runs and all its notes are queued to one session. */
  lemma RunAndDeliver(moves: seq<Move>, op: Op, out: Output, id: SessionId) returns (longer: seq<Move>)
    requires Happens(moves) && Exec(moves).pending == map[]
    requires Scripted(Exec(moves), op) && Emits(Exec(moves).server, op, out) && out.evicted.None?
    requires out.notes != [] && AllTo(out.notes, id) && !op.RegisterWatchOp? && !op.UnregisterWatchOp?
    requires var w := Exec(moves); id in w.boxes && Open(w.boxes[id]) && |w.boxes[id].queue| + |out.notes| <= QUEUE
    ensures Happens(longer)
    ensures var w := Exec(moves);
            Exec(longer) == World(Apply(w.server, op), w.boxes[id := TakenAll(w.boxes[id], BodiesOf(out.notes))],
                                  PublishersAfter(w, op, out), map[])
  {
    longer := RunSection(moves, 0, op, out);
    hide Emits, Apply, Happens, Exec, Do, Enabled, TakenAll;
    longer := DeliverAll(longer, 0, TenantOf(op), out.notes, id);
  }

  // ---------------------------------------------------------------- one watcher, one source

  function FirstCatalog(): Message {
    Catalog([], "")
  }

  /** The only watcher, registered and greeted. */
  function WatchedBox(t: string): Box {
    NewBox(t, FirstCatalog()).(ready := true, direct := [FirstCatalog()])
  }

  function Watched(t: string, id: SessionId): World {
    World(map[t := Tenant(map[], map[id := ""])], map[id := WatchedBox(t)], map[], map[])
  }

  /** Registered, and not greeted yet. */
  function Registered(t: string, id: SessionId): World {
    Watched(t, id).(boxes := map[id := NewBox(t, FirstCatalog())])
  }

  lemma RegisteredIsReached(t: string, id: SessionId) returns (moves: seq<Move>)
    ensures SerialisedRun(moves) && Exec(moves) == Registered(t, id)
  {
    var op, out := RegisterWatchOp(t, id), SILENT.(reply := Some(FirstCatalog()));
    assert Descriptors(Tenant(map[], map[])) == {};
    assert Exec([]) == START && SerialisedRun([]);
    moves := RunSection([], 0, op, out);
  }

  lemma RunGreet(moves: seq<Move>, t: string, id: SessionId) returns (longer: seq<Move>)
    requires Happens(moves)
    requires var w := Exec(moves);
             id in w.boxes && w.boxes[id].tenant == t && !w.boxes[id].ready && !w.boxes[id].gone && w.boxes[id].writing
    ensures Happens(longer) && (SerialisedRun(moves) ==> SerialisedRun(longer))
    ensures var w := Exec(moves); Exec(longer) == w.(boxes := w.boxes[id := Greeted(w.boxes[id], true)])
  {
    hide Emits, Apply, Happens, Exec, SerialisedRun;
    HappensNext(moves, Greet(id, t, true));
    if SerialisedRun(moves) {
      StillSerialised(moves, Greet(id, t, true));
    }
    longer := moves + [Greet(id, t, true)];
  }

  lemma WatchedIsReached(t: string, id: SessionId) returns (moves: seq<Move>)
    ensures Happens(moves) && Exec(moves) == Watched(t, id)
  {
    moves := RegisteredIsReached(t, id);
    hide Emits, Apply, Happens, Exec, Do, Enabled;
    moves := RunGreet(moves, t, id);
  }

  /** With one watcher and one source, these two notes announce a state change. */
  function Round(id: SessionId, source: Source, selected: string, body: Message): seq<Note> {
    [Note(id, Catalog([Describe(source)], selected)), Note(id, body)]
  }

  lemma OneListing(name: string, source: Source, watchers: map<SessionId, string>)
    ensures Descriptors(Tenant(map[name := source], watchers)) == {Describe(source)}
  {
    var tenant := Tenant(map[name := source], watchers);
    assert name in tenant.sources && Describe(tenant.sources[name]) == Describe(source);
  }

  lemma RoundAnnounces(tenant: Tenant, id: SessionId, name: string, source: Source, selected: string, body: Message)
    requires tenant == Tenant(map[name := source], map[id := selected])
    ensures CatalogsThenState(Round(id, source, selected, body), tenant, body)
  {
    var notes := Round(id, source, selected, body);
    OneListing(name, source, tenant.watchers);
    assert tenant.watchers.Keys == {id};
    assert Recipients(notes[..1]) == [id] == Recipients(notes[1..]);
    assert CatalogRound(notes[..1], tenant);
    assert FanOut(notes[1..], {id}, body);
  }

  function OnlineSource(s: Ingest): Source {
    Source(s.source, s.display, 0, None, Some(s), [])
  }

  function OnlineNotes(id: SessionId, s: Ingest, selected: string): seq<Note> {
    Round(id, OnlineSource(s), selected, SourceState(s.source, Online))
  }

  function OnlineOut(id: SessionId, s: Ingest, selected: string): Output {
    Output(false, None, Some(Online), None, OnlineNotes(id, s, selected))
  }

  /** The first ingest session of the tenant comes online. */
  lemma ComesOnline(t: string, id: SessionId, s: Ingest)
    requires s.tenant == t
    ensures var st := map[t := Tenant(map[], map[id := ""])];
            && Apply(st, RegisterIngestOp(s, 0)) == map[t := Tenant(map[s.source := OnlineSource(s)], map[id := ""])]
            && Emits(st, RegisterIngestOp(s, 0), OnlineOut(id, s, ""))
  {
    var after := Tenant(map[s.source := OnlineSource(s)], map[id := ""]);
    RoundAnnounces(after, id, s.source, OnlineSource(s), "", SourceState(s.source, Online));
  }

  // ---------------------------------------------------------------- greeted too late

  /** Both notes of an announcement find a session that is not ready yet. */
  lemma TurnedAway(moves: seq<Move>, k: nat, t: string, id: SessionId, notes: seq<Note>) returns (longer: seq<Move>)
    requires Happens(moves) && |notes| == 2 && AllTo(notes, id)
    requires var w := Exec(moves);
             && w.pending == map[k := Task(t, None, notes, Fresh)]
             && id in w.boxes && !w.boxes[id].ready
    ensures Happens(longer) && (SerialisedRun(moves) ==> SerialisedRun(longer))
    ensures Exec(longer) == Exec(moves).(pending := map[])
  {
    hide Emits, Apply, Happens, Exec, Do, Enabled, SerialisedRun;
    var w := Exec(moves);
    longer := RunRefusal(moves, k, id);
    assert Exec(longer) == w.(pending := map[k := Task(t, None, notes[1..], Fresh)]);
    longer := RunRefusal(longer, k, id);
    assert notes[1..][1..] == [];
  }

  /**
   A stale catalog without any overlap: a run in which a source comes online between the registration of a watcher and
   its greeting. Its notes are turned away, because the session is not ready; the greeting lists the tenant as it was at
   the registration. Nothing is pending, the watcher is open and missed nothing it was ready for - and the only catalog
   it has lists no source, while one is online.
   */
  lemma GreetedTooLate(id: SessionId, s: Ingest) returns (moves: seq<Move>)
    requires s.source != ""
    ensures SerialisedRun(moves)
    ensures var w := Exec(moves);
            && w.pending == map[] && Owns(w.server, s)
            && id in WatchersIn(w.server, s.tenant) && id in w.boxes && Open(w.boxes[id])
            && w.boxes[id].direct == [FirstCatalog()] && w.boxes[id].offered == [] && w.boxes[id].accepted == []
            && FirstCatalog().sources == []
  {
    var t := s.tenant;
    moves := RegisteredIsReached(t, id);
    ComesOnline(t, id, s);
    var out := OnlineOut(id, s, "");
    assert AllTo(out.notes, id) && |out.notes| == 2 && out.evicted.None? && !out.refused;
    hide Emits, Apply, Exec, Do, Enabled, OnlineOut, OnlineNotes;
    assert Happens(moves);
    hide Happens, SerialisedRun;
    moves := RunSection(moves, 0, RegisterIngestOp(s, 0), out);
    moves := TurnedAway(moves, 0, t, id, out.notes);
    moves := RunGreet(moves, t, id);
  }

  /** The watcher follows the source of s, and everything is delivered. */
  ghost predicate Following(w: World, id: SessionId, s: Ingest) {
    && w.server == map[s.tenant := Tenant(map[s.source := OnlineSource(s)], map[id := s.source])]
    && w.boxes.Keys == {id} && w.boxes[id].tenant == s.tenant && Open(w.boxes[id]) && !w.boxes[id].gone
    && w.publishers == map[s.id := Publisher(s, true, false)] && w.pending == map[]
    && |w.boxes[id].queue| == 5
    && UpdateAll(None, w.boxes[id].accepted) == Some(Replica(s.source, true, None))
  }

  function SelectedNotes(id: SessionId, s: Ingest): seq<Note> {
    [Note(id, SelectResult(true, s.source, "")), Note(id, Catalog([Describe(OnlineSource(s))], s.source)),
     Note(id, Snapshot(s.source, true, None))]
  }

  lemma SelectsOnline(id: SessionId, s: Ingest)
    ensures var st := map[s.tenant := Tenant(map[s.source := OnlineSource(s)], map[id := ""])];
            var op := SelectSourceOp(s.tenant, id, s.source);
            && Apply(st, op) == map[s.tenant := Tenant(map[s.source := OnlineSource(s)], map[id := s.source])]
            && Emits(st, op, SILENT.(notes := SelectedNotes(id, s)))
  {
    var tenant := Tenant(map[s.source := OnlineSource(s)], map[id := ""]);
    OneListing(s.source, OnlineSource(s), tenant.watchers);
    assert tenant.watchers[id := s.source] == map[id := s.source];
    assert CatalogOf(SelectedNotes(id, s)[1].body, tenant, s.source);
  }

  lemma ReplicaAfter(s: Ingest, round: seq<Message>, answer: seq<Message>)
    requires |round| == 2 && round[0].Catalog? && round[1].SourceState?
    requires |answer| == 3 && answer[0].SelectResult? && answer[1].Catalog?
    requires answer[2] == Snapshot(s.source, true, None)
    ensures UpdateAll(None, round + answer) == Some(Replica(s.source, true, None))
  {
    assert round == [round[0], round[1]] && answer == [answer[0], answer[1], answer[2]];
    UpdateAllConcat(None, round, answer);
    UpdateTwo(None, round[0], round[1]);
    UpdateThree(None, answer[0], answer[1], answer[2]);
  }

  function OnlineBox(id: SessionId, s: Ingest): Box {
    TakenAll(WatchedBox(s.tenant), BodiesOf(OnlineNotes(id, s, "")))
  }

  function OnlineWorld(id: SessionId, s: Ingest): World {
    World(map[s.tenant := Tenant(map[s.source := OnlineSource(s)], map[id := ""])], map[id := OnlineBox(id, s)],
          map[s.id := Publisher(s, true, false)], map[])
  }

  lemma OnlineIsReached(id: SessionId, s: Ingest) returns (moves: seq<Move>)
    requires s.source != ""
    ensures Happens(moves) && Exec(moves) == OnlineWorld(id, s)
  {
    moves := WatchedIsReached(s.tenant, id);
    ComesOnline(s.tenant, id, s);
    var out := OnlineOut(id, s, "");
    assert AllTo(out.notes, id) && |out.notes| == 2 && out.notes == OnlineNotes(id, s, "");
    assert out.evicted.None? && !out.refused;
    hide Emits, Apply, Happens, Exec, Do, Enabled, TakenAll, OnlineOut, OnlineNotes, BodiesOf;
    moves := RunAndDeliver(moves, RegisterIngestOp(s, 0), out, id);
  }

  function FollowingBox(id: SessionId, s: Ingest): Box {
    TakenAll(OnlineBox(id, s), BodiesOf(SelectedNotes(id, s)))
  }

  lemma OnlineBoxFacts(id: SessionId, s: Ingest)
    ensures var box := OnlineBox(id, s);
            && box == WatchedBox(s.tenant).(queue := box.queue, offered := box.offered, accepted := box.accepted)
            && box.accepted == BodiesOf(OnlineNotes(id, s, "")) && |box.queue| == 2
  {
    TakenAllFacts(WatchedBox(s.tenant), BodiesOf(OnlineNotes(id, s, "")));
  }

  lemma FollowingBoxFacts(id: SessionId, s: Ingest)
    ensures var box := FollowingBox(id, s);
            && box == WatchedBox(s.tenant).(queue := box.queue, offered := box.offered, accepted := box.accepted)
            && |box.queue| == 5
            && UpdateAll(None, box.accepted) == Some(Replica(s.source, true, None))
  {
    OnlineBoxFacts(id, s);
    TakenAllFacts(OnlineBox(id, s), BodiesOf(SelectedNotes(id, s)));
    ReplicaAfter(s, BodiesOf(OnlineNotes(id, s, "")), BodiesOf(SelectedNotes(id, s)));
  }

  function FollowingWorld(id: SessionId, s: Ingest): World {
    World(map[s.tenant := Tenant(map[s.source := OnlineSource(s)], map[id := s.source])],
          map[id := FollowingBox(id, s)], map[s.id := Publisher(s, true, false)], map[])
  }

  lemma SelectOnce(moves: seq<Move>, id: SessionId, s: Ingest) returns (longer: seq<Move>)
    requires Happens(moves) && Exec(moves) == OnlineWorld(id, s)
    ensures Happens(longer) && Exec(longer) == FollowingWorld(id, s)
  {
    SelectsOnline(id, s);
    OnlineBoxFacts(id, s);
    var notes := SelectedNotes(id, s);
    assert AllTo(notes, id) && |notes| == 3;
    hide Emits, Apply, Happens, Exec, Do, Enabled, TakenAll, OnlineBox, SelectedNotes, OnlineNotes, BodiesOf;
    longer := RunAndDeliver(moves, SelectSourceOp(s.tenant, id, s.source), SILENT.(notes := notes), id);
  }

  lemma FollowingIsReached(id: SessionId, s: Ingest) returns (moves: seq<Move>)
    requires s.source != ""
    ensures Happens(moves) && Following(Exec(moves), id, s)
  {
    moves := OnlineIsReached(id, s);
    moves := SelectOnce(moves, id, s);
    FollowingBoxFacts(id, s);
    hide Emits, Apply, Happens, Exec, Do, Enabled, UpdateAll, FollowingBox;
  }

  // ---------------------------------------------------------------- overtaking

  function OfflineSource(s: Ingest): Source {
    OnlineSource(s).(active := None)
  }

  function OfflineOut(id: SessionId, s: Ingest): Output {
    Output(false, None, Some(Offline), None, Round(id, OfflineSource(s), s.source, SourceState(s.source, Offline)))
  }

  /** The session leaves. */
  lemma Leaves(id: SessionId, s: Ingest)
    ensures var st := map[s.tenant := Tenant(map[s.source := OnlineSource(s)], map[id := s.source])];
            && Apply(st, UnregisterIngestOp(s, false, 0)) ==
               map[s.tenant := Tenant(map[s.source := OfflineSource(s)], map[id := s.source])]
            && Emits(st, UnregisterIngestOp(s, false, 0), OfflineOut(id, s))
  {
    var st := map[s.tenant := Tenant(map[s.source := OnlineSource(s)], map[id := s.source])];
    var left := Tenant(map[s.source := OfflineSource(s)], map[id := s.source]);
    assert id in left.watchers;
    assert st[s.tenant].sources[s.source := OfflineSource(s)] == left.sources;
    assert WithSource(st, s.tenant, s.source, OfflineSource(s)) == map[s.tenant := left];
    RoundAnnounces(left, id, s.source, OfflineSource(s), s.source, SourceState(s.source, Offline));
  }

  /** A new one comes. */
  lemma Returns(id: SessionId, s: Ingest, s': Ingest)
    requires s'.tenant == s.tenant && s'.source == s.source
    ensures var left := map[s.tenant := Tenant(map[s.source := OfflineSource(s)], map[id := s.source])];
            && Apply(left, RegisterIngestOp(s', 0)) ==
               map[s.tenant := Tenant(map[s.source := OnlineSource(s')], map[id := s.source])]
            && Emits(left, RegisterIngestOp(s', 0), OnlineOut(id, s', s.source))
  {
    var left := map[s.tenant := Tenant(map[s.source := OfflineSource(s)], map[id := s.source])];
    var back := Tenant(map[s.source := OnlineSource(s')], map[id := s.source]);
    assert left[s.tenant].sources[s.source := OnlineSource(s')] == back.sources;
    assert WithSource(left, s.tenant, s.source, OnlineSource(s')) == map[s.tenant := back];
    RoundAnnounces(back, id, s.source, OnlineSource(s'), s.source, SourceState(s.source, Online));
  }

  /** The same two rounds of messages, queued in the other order, leave a replica offline. */
  lemma WrongOrder(log: seq<Message>, replica: Replica, off: seq<Message>, on: seq<Message>)
    requires UpdateAll(None, log) == Some(replica) && |off| == 2 && |on| == 2 && off[0].Catalog? && on[0].Catalog?
    requires off[1] == SourceState(replica.source, Offline) && on[1] == SourceState(replica.source, Online)
    ensures UpdateAll(None, log + on + off) == Some(replica.(online := false))
  {
    assert on == [on[0], on[1]] && off == [off[0], off[1]];
    UpdateAllConcat(None, log, on);
    UpdateAllConcat(None, log + on, off);
    UpdateTwo(Some(replica), on[0], on[1]);
    UpdateTwo(Some(replica.(online := true)), off[0], off[1]);
  }

  /** Both sections of the takeover have run, and neither has been dispatched. */
  lemma BothInFlight(moves: seq<Move>, id: SessionId, s: Ingest, s': Ingest) returns (longer: seq<Move>)
    requires Happens(moves) && Following(Exec(moves), id, s)
    requires s'.tenant == s.tenant && s'.source == s.source && s'.id != s.id && s.source != ""
    ensures Happens(longer)
    ensures var w := Exec(longer);
            && w.boxes == Exec(moves).boxes
            && w.server == map[s.tenant := Tenant(map[s.source := OnlineSource(s')], map[id := s.source])]
            && w.pending == map[0 := Task(s.tenant, None, OfflineOut(id, s).notes, Fresh),
                                1 := Task(s.tenant, None, OnlineOut(id, s', s.source).notes, Fresh)]
  {
    Leaves(id, s);
    Returns(id, s, s');
    hide Emits, Apply, Happens, Exec;
    longer := RunSection(moves, 0, UnregisterIngestOp(s, false, 0), OfflineOut(id, s));
    longer := RunSection(longer, 1, RegisterIngestOp(s', 0), OnlineOut(id, s', s.source));
  }

  /**
   A stale watcher: a run after which everything is delivered, the watcher follows a source that is online, was never
   closed and missed no message - and holds the source offline, because the dispatch of the takeover overtook that of
   the departure before it.
   */
  lemma OverlappingDispatchGoesStale(id: SessionId, s: Ingest, s': Ingest) returns (moves: seq<Move>)
    requires s'.tenant == s.tenant && s'.source == s.source && s'.id != s.id && s.source != ""
    ensures Happens(moves)
    ensures var w := Exec(moves);
            && w.pending == map[] && Owns(w.server, s')
            && WatchersIn(w.server, s.tenant) == map[id := s.source]
            && id in w.boxes && Open(w.boxes[id]) && !Missed(w.boxes[id])
            && UpdateAll(None, w.boxes[id].accepted) == Some(Replica(s.source, false, None))
  {
    moves := FollowingIsReached(id, s);
    moves := BothInFlight(moves, id, s, s');
    var on, off := OnlineOut(id, s', s.source).notes, OfflineOut(id, s).notes;
    ghost var box := Exec(moves).boxes[id];
    assert |on| == 2 && |off| == 2 && AllTo(on, id) && AllTo(off, id);
    hide Emits, Apply, Happens, Exec, Do, Enabled, TakenAll, UpdateAll;
    StaleBox(box, Replica(s.source, true, None), BodiesOf(off), BodiesOf(on));
    moves := SecondOvertakes(moves, s.tenant, id, off, on);
    MissedMeansClosing(moves, id);
    assert !Owed(Exec(moves), id);
  }

  /** The second of two tasks is delivered before the first. */
  lemma SecondOvertakes(moves: seq<Move>, t: string, id: SessionId, a: seq<Note>, b: seq<Note>)
    returns (longer: seq<Move>)
    requires Happens(moves) && |a| == |b| == 2 && AllTo(a, id) && AllTo(b, id)
    requires var w := Exec(moves);
             && w.pending == map[0 := Task(t, None, a, Fresh), 1 := Task(t, None, b, Fresh)]
             && id in w.boxes && Open(w.boxes[id]) && |w.boxes[id].queue| + 4 <= QUEUE
    ensures Happens(longer)
    ensures var w := Exec(moves);
            Exec(longer) == w.(pending := map[],
                               boxes := w.boxes[id := TakenAll(TakenAll(w.boxes[id], BodiesOf(b)), BodiesOf(a))])
  {
    hide Emits, Apply, Happens, Exec, Do, Enabled, TakenAll;
    var box := Exec(moves).boxes[id];
    TakenAllFacts(box, BodiesOf(b));
    longer := DeliverAll(moves, 1, t, b, id);
    longer := DeliverAll(longer, 0, t, a, id);
  }

  lemma StaleBox(box: Box, replica: Replica, off: seq<Message>, on: seq<Message>)
    requires UpdateAll(None, box.accepted) == Some(replica)
    requires |off| == 2 && |on| == 2 && off[0].Catalog? && on[0].Catalog?
    requires off[1] == SourceState(replica.source, Offline) && on[1] == SourceState(replica.source, Online)
    ensures var later := TakenAll(box, on);
            later == box.(queue := box.queue + on, offered := later.offered, accepted := later.accepted)
    ensures var last := TakenAll(TakenAll(box, on), off);
            && last == box.(queue := last.queue, offered := last.offered, accepted := last.accepted)
            && UpdateAll(None, last.accepted) == Some(replica.(online := false))
  {
    TakenAllFacts(box, on);
    TakenAllFacts(TakenAll(box, on), off);
    WrongOrder(box.accepted, replica, off, on);
  }

  // ---------------------------------------------------------------- the two races of delivery

  function Refusal(): Message {
    SelectResult(false, "", "source_not_found")
  }

  function RefusalOut(id: SessionId): Output {
    SILENT.(notes := [Note(id, Refusal())])
  }

  function Repeat(n: nat): (bodies: seq<Message>)
    ensures |bodies| == n
  {
    seq(n, _ => Refusal())
  }

  /** Asking for a source that does not exist changes nothing. */
  lemma AskInVain(t: string, id: SessionId)
    ensures Apply(Watched(t, id).server, SelectSourceOp(t, id, "")) == Watched(t, id).server
    ensures Emits(Watched(t, id).server, SelectSourceOp(t, id, ""), RefusalOut(id))
  {}

  lemma AskOnce(moves: seq<Move>, t: string, id: SessionId, box: Box) returns (longer: seq<Move>)
    requires Happens(moves) && Exec(moves) == Watched(t, id).(boxes := map[id := box])
    requires Open(box) && box.tenant == t && !box.gone && |box.queue| < QUEUE
    ensures Happens(longer) && Exec(longer) == Watched(t, id).(boxes := map[id := Taken(box, Refusal())])
  {
    AskInVain(t, id);
    hide Emits, Apply, Happens, Exec, Do, Enabled;
    longer := RunAndDeliver(moves, SelectSourceOp(t, id, ""), RefusalOut(id), id);
    assert BodiesOf(RefusalOut(id).notes) == [Refusal()];
    TakenAllOne(box, Refusal());
  }

  /** The watcher asks n times for a source that does not exist, and reads no answer. */
  lemma {:induction false} FillQueue(t: string, id: SessionId, n: nat) returns (moves: seq<Move>)
    requires n <= QUEUE
    ensures Happens(moves)
    ensures Exec(moves) == Watched(t, id).(boxes := map[id := TakenAll(WatchedBox(t), Repeat(n))])
  {
    if n == 0 {
      moves := WatchedIsReached(t, id);
    } else {
      moves := FillQueue(t, id, n - 1);
      hide Emits, Apply, Happens, Exec, Do, Enabled;
      TakenAllFacts(WatchedBox(t), Repeat(n - 1));
      TakenAllSnoc(WatchedBox(t), Repeat(n - 1), Refusal());
      hide TakenAll;
      moves := AskOnce(moves, t, id, TakenAll(WatchedBox(t), Repeat(n - 1)));
      assert Repeat(n - 1) + [Refusal()] == Repeat(n);
    }
  }

  lemma TakenAllOne(box: Box, body: Message)
    ensures TakenAll(box, [body]) == Taken(box, body)
  {
    assert [body][1..] == [];
  }

  lemma {:induction false} TakenAllSnoc(box: Box, bodies: seq<Message>, body: Message)
    ensures TakenAll(box, bodies + [body]) == Taken(TakenAll(box, bodies), body)
    decreases |bodies|
  {
    if bodies == [] {
      assert [] + [body] == [body];
      TakenAllOne(box, body);
    } else {
      assert (bodies + [body])[1..] == bodies[1..] + [body];
      TakenAllSnoc(Taken(box, bodies[0]), bodies[1..], body);
    }
  }

  /** Two tasks have something for the watcher, at these stages. */
  ghost predicate Waiting(w: World, id: SessionId, box: Box, t: string, a: seq<Note>, b: seq<Note>, s0: Stage,
                          s1: Stage)
  {
    && w.boxes == map[id := box]
    && a != [] && b != [] && a[0].to == id && b[0].to == id
    && w.pending == map[0 := Task(t, None, a, s0), 1 := Task(t, None, b, s1)]
  }

  /** A refusal for the watcher, and the announcement of a source. */
  lemma TwoSections(moves: seq<Move>, id: SessionId, s: Ingest, box: Box) returns (longer: seq<Move>)
    requires Happens(moves) && Exec(moves) == Watched(s.tenant, id).(boxes := map[id := box])
    requires s.source != "" && Open(box) && box.tenant == s.tenant && !box.gone
    ensures Happens(longer)
    ensures Waiting(Exec(longer), id, box, s.tenant, RefusalOut(id).notes, OnlineNotes(id, s, ""), Fresh, Fresh)
  {
    var st := Watched(s.tenant, id).server;
    var op := SelectSourceOp(s.tenant, id, "");
    AskInVain(s.tenant, id);
    ComesOnline(s.tenant, id, s);
    hide Emits, Apply, Happens, Exec;
    longer := RunSection(moves, 0, op, RefusalOut(id));
    longer := RunSection(longer, 1, RegisterIngestOp(s, 0), OnlineOut(id, s, ""));
  }

  /** The gap: the session missed one message and its queue took the next. */
  ghost predicate HasGap(box: Box) {
    !GapFree(box.offered) && !(box.accepted <= AllBodies(box.offered))
  }

  lemma GapAfter(box: Box, missed: Message, taken: Message, box': Box)
    requires BoxSound(box) && box.accepted == AllBodies(box.offered) && missed != taken
    requires box'.offered == box.offered + [Attempt(missed, false), Attempt(taken, true)]
    requires box'.accepted == box.accepted + [taken]
    ensures HasGap(box')
  {
    var n := |box.offered|;
    assert !box'.offered[n].taken && box'.offered[n + 1].taken;
    assert AllBodies(box'.offered)[n] == missed && box'.accepted[n] == taken;
  }

  lemma RunFetch(moves: seq<Move>, id: SessionId) returns (longer: seq<Move>)
    requires Happens(moves)
    requires var w := Exec(moves);
             && id in w.boxes && w.boxes[id].ready && w.boxes[id].writing
             && w.boxes[id].queue != [] && w.boxes[id].inflight.None?
    ensures Happens(longer)
    ensures var w := Exec(moves); Exec(longer) == w.(boxes := w.boxes[id := Fetched(w.boxes[id])])
  {
    hide Emits, Apply, Happens, Exec;
    var move := Fetch(id, Exec(moves).boxes[id].tenant);
    HappensNext(moves, move);
    longer := moves + [move];
  }

  lemma RunClose(moves: seq<Move>, id: SessionId) returns (longer: seq<Move>)
    requires Happens(moves) && id in Exec(moves).boxes && Exec(moves).boxes[id].ready
    ensures Happens(longer)
    ensures var w := Exec(moves); Exec(longer) == w.(boxes := w.boxes[id := w.boxes[id].(closed := true)])
  {
    hide Emits, Apply, Happens, Exec;
    var move := CloseWatch(id, Exec(moves).boxes[id].tenant);
    HappensNext(moves, move);
    longer := moves + [move];
  }

  /** The first task finds the queue full while the second is between its two selects. */
  lemma FoundFull(moves: seq<Move>, id: SessionId, box: Box, t: string, a: seq<Note>, b: seq<Note>)
    returns (longer: seq<Move>)
    requires Happens(moves) && Waiting(Exec(moves), id, box, t, a, b, Fresh, Fresh)
    requires Open(box) && |box.queue| == QUEUE
    ensures Happens(longer) && Waiting(Exec(longer), id, Refused(box, a[0].body), t, a, b, Full, Checked)
  {
    hide Emits, Apply, Happens, Exec, Do, Enabled;
    longer := RunCheck(moves, 0, id);
    longer := RunCheck(longer, 1, id);
    longer := RunPush(longer, 0, id);
  }

  /** The writer makes room, and the second task uses it. */
  lemma RoomAgain(moves: seq<Move>, id: SessionId, box: Box, t: string, a: seq<Note>, b: seq<Note>)
    returns (longer: seq<Move>)
    requires Happens(moves) && Waiting(Exec(moves), id, box, t, a, b, Full, Checked)
    requires Open(box) && |box.queue| == QUEUE && box.writing && box.inflight.None?
    ensures Happens(longer)
    ensures Exec(longer).boxes == map[id := Taken(Fetched(box), b[0].body)] && Owed(Exec(longer), id)
  {
    hide Emits, Apply, Happens, Exec, Do, Enabled;
    longer := RunFetch(moves, id);
    longer := RunPush(longer, 1, id);
    assert HeadFor(Exec(longer), 0, id) && Exec(longer).pending[0].stage == Full;
  }

  /**
   Why delivery is a prefix only without races, first run: the queue is found full; before the session is closed its
   writer makes room, and another goroutine queues a message. The session is still open.
   */
  lemma CloseComesTooLate(id: SessionId, s: Ingest) returns (moves: seq<Move>)
    requires s.source != ""
    ensures Happens(moves)
    ensures var w := Exec(moves); id in w.boxes && !w.boxes[id].closed && Owed(w, id) && HasGap(w.boxes[id])
  {
    moves := FillQueue(s.tenant, id, QUEUE);
    var box := TakenAll(WatchedBox(s.tenant), Repeat(QUEUE));
    hide Emits, Apply, Happens, Exec, Do, Enabled, TakenAll, HasGap;
    TakenAllFacts(WatchedBox(s.tenant), Repeat(QUEUE));
    DeliveryIsBounded(moves, id);
    assert !Owed(Exec(moves), id);
    OpenMissesNothing(moves, id);
    moves := TwoSections(moves, id, s, box);
    var a, b := RefusalOut(id).notes, OnlineNotes(id, s, "");
    moves := FoundFull(moves, id, box, s.tenant, a, b);
    moves := RoomAgain(moves, id, Refused(box, a[0].body), s.tenant, a, b);
    GapAfter(box, a[0].body, b[0].body, Exec(moves).boxes[id]);
  }

  /** One task passes the first select, the session is closed, the other task is turned away, and the first goes on. */
  lemma PassedBeforeClose(moves: seq<Move>, id: SessionId, box: Box, t: string, a: seq<Note>, b: seq<Note>)
    returns (longer: seq<Move>)
    requires Happens(moves) && Waiting(Exec(moves), id, box, t, a, b, Fresh, Fresh)
    requires Open(box) && |box.queue| < QUEUE
    ensures Happens(longer)
    ensures Exec(longer).boxes == map[id := Taken(Refused(box.(closed := true), a[0].body), b[0].body)]
  {
    hide Emits, Apply, Happens, Exec, Do, Enabled;
    longer := RunCheck(moves, 1, id);
    longer := RunClose(longer, id);
    longer := RunRefusal(longer, 0, id);
    longer := RunPush(longer, 1, id);
  }

  /**
   Second run: one goroutine has passed the first select when the session is closed; another one is turned away; then
   the first one's second select takes its message all the same.
   */
  lemma TakesAfterClose(id: SessionId, s: Ingest) returns (moves: seq<Move>)
    requires s.source != ""
    ensures Happens(moves)
    ensures var w := Exec(moves); id in w.boxes && w.boxes[id].closed && HasGap(w.boxes[id])
  {
    moves := WatchedIsReached(s.tenant, id);
    var box := WatchedBox(s.tenant);
    DeliveryIsBounded(moves, id);
    hide Emits, Apply, Happens, Exec, Do, Enabled, HasGap;
    moves := TwoSections(moves, id, s, box);
    var a, b := RefusalOut(id).notes, OnlineNotes(id, s, "");
    moves := PassedBeforeClose(moves, id, box, s.tenant, a, b);
    assert AllBodies(box.offered) == [];
    GapAfter(box, a[0].body, b[0].body, Exec(moves).boxes[id]);
  }
}
