/**
 The relay server's shared state and the critical sections of its mutex, as values.
 `Apply` is the state change of one critical section; `Emits` says which outputs it may produce. The outputs are a
 relation because Go iterates its maps in any order.
 */
module ServerModel {
  import opened Basics
  import opened SequenceWindows
  import opened Protocol

  const WINDOW := 1024

  /** `accepted` is the history behind the source's duplicate window. */
  datatype Source = Source(
    name: string, display: string, lastSeen: int, lastStatus: Option<Live>, active: Option<Ingest>, accepted: seq<Key>)

  /** `watchers` maps each registered watch session to its selected source, "" for none. */
  datatype Tenant = Tenant(sources: map<string, Source>, watchers: map<SessionId, string>)

  type State = map<string, Tenant>

  // ---------------------------------------------------------------- state changes

  function TenantOrNew(st: State, id: string): Tenant {
    if id in st then st[id] else Tenant(map[], map[])
  }

  function SourceOrNew(tenant: Tenant, s: Ingest): Source {
    if s.source in tenant.sources then tenant.sources[s.source] else Source(s.source, s.display, 0, None, None, [])
  }

  function WithSource(st: State, tenantId: string, name: string, source: Source): State {
    var tenant := TenantOrNew(st, tenantId);
    st[tenantId := tenant.(sources := tenant.sources[name := source])]
  }

  predicate HasActiveIngest(tenant: Tenant) {
    exists n :: n in tenant.sources && tenant.sources[n].active.Some?
  }

  function Cleanup(st: State, id: string): State {
    if id in st && st[id].watchers == map[] && !HasActiveIngest(st[id]) then st - {id} else st
  }

  predicate Busy(source: Source, s: Ingest) {
    source.active.Some? && source.active.value.instance != s.instance
  }

  predicate Refuses(st: State, s: Ingest) {
    Busy(SourceOrNew(TenantOrNew(st, s.tenant), s), s)
  }

  /** The source is looked up or created before the ownership test, so a refusal writes it back too. */
  function RegisterIngest(st: State, s: Ingest, now: int): State {
    var source := SourceOrNew(TenantOrNew(st, s.tenant), s);
    WithSource(st, s.tenant, s.source,
               if Busy(source, s) then source else source.(active := Some(s), display := s.display, lastSeen := now))
  }

  predicate Known(st: State, tenant: string, source: string) {
    tenant in st && source in st[tenant].sources
  }

  /** s is the session that currently feeds its source. */
  predicate Owns(st: State, s: Ingest) {
    Known(st, s.tenant, s.source) && st[s.tenant].sources[s.source].active == Some(s)
  }

  function UnregisterIngest(st: State, s: Ingest, now: int): State {
    if !Owns(st, s) then Cleanup(st, s.tenant)
    else
      var source := st[s.tenant].sources[s.source];
      Cleanup(WithSource(st, s.tenant, s.source, source.(active := None, lastSeen := now)), s.tenant)
  }

  function RegisterWatch(st: State, tenantId: string, id: SessionId): State {
    var tenant := TenantOrNew(st, tenantId);
    st[tenantId := tenant.(watchers := tenant.watchers[id := ""])]
  }

  function UnregisterWatch(st: State, tenantId: string, id: SessionId): State {
    if tenantId !in st then st
    else Cleanup(st[tenantId := st[tenantId].(watchers := st[tenantId].watchers - {id})], tenantId)
  }

  function SelectSource(st: State, tenantId: string, id: SessionId, name: string): State {
    if Known(st, tenantId, name) && id in st[tenantId].watchers
    then st[tenantId := st[tenantId].(watchers := st[tenantId].watchers[id := name])]
    else st
  }

  /** The frame passes the duplicate window. Number 0 bypasses it. */
  predicate Passes(source: Source, instance: string, number: uint64) {
    number == 0 || !Duplicate(source.accepted, WINDOW, Key(instance, number))
  }

  /** A source after an accepted frame: the key is remembered, and a status event becomes the last status. */
  function Recorded(source: Source, instance: string, number: uint64, live: Live, now: int): Source {
    source.(
      accepted := if number == 0 then source.accepted else source.accepted + [Key(instance, number)],
      lastStatus := if live.kind.Status? then Some(live) else source.lastStatus,
      lastSeen := now)
  }

  predicate Accepts(st: State, s: Ingest, number: uint64) {
    Owns(st, s) && Passes(st[s.tenant].sources[s.source], s.instance, number)
  }

  function IngestEvent(st: State, s: Ingest, number: uint64, frame: Frame, now: int): State {
    if !Accepts(st, s, number) then st
    else
      var source := st[s.tenant].sources[s.source];
      WithSource(st, s.tenant, s.source, Recorded(source, s.instance, number, Sanitize(s.source, frame), now))
  }

  datatype Op =
    | RegisterIngestOp(session: Ingest, now: int)
    | UnregisterIngestOp(session: Ingest, replaced: bool, now: int)
    | RegisterWatchOp(tenantId: string, watcher: SessionId)
    | UnregisterWatchOp(tenantId: string, watcher: SessionId)
    | SelectSourceOp(tenantId: string, watcher: SessionId, name: string)
    | IngestEventOp(session: Ingest, number: uint64, frame: Frame, now: int)

  function TenantOf(op: Op): string {
    if op.RegisterIngestOp? || op.UnregisterIngestOp? || op.IngestEventOp? then op.session.tenant else op.tenantId
  }

  function Apply(st: State, op: Op): State {
    match op
    case RegisterIngestOp(s, now) => RegisterIngest(st, s, now)
    case UnregisterIngestOp(s, _, now) => UnregisterIngest(st, s, now)
    case RegisterWatchOp(t, id) => RegisterWatch(st, t, id)
    case UnregisterWatchOp(t, id) => UnregisterWatch(st, t, id)
    case SelectSourceOp(t, id, name) => SelectSource(st, t, id, name)
    case IngestEventOp(s, number, frame, now) => IngestEvent(st, s, number, frame, now)
  }

  /** The state after any sequence of critical sections on a new server. */
  function After(ops: seq<Op>): State {
    if ops == [] then map[] else Apply(After(ops[..|ops| - 1]), ops[|ops| - 1])
  }

  // ---------------------------------------------------------------- outputs

  function Describe(source: Source): Descriptor {
    Descriptor(source.name, if source.display == "" then source.name else source.display,
               source.active.Some?, source.lastSeen)
  }

  ghost function Descriptors(tenant: Tenant): set<Descriptor> {
    set n | n in tenant.sources :: Describe(tenant.sources[n])
  }

  ghost predicate CatalogOf(body: Message, tenant: Tenant, current: string) {
    body.Catalog? && body.current == current && Enumerates(body.sources, Descriptors(tenant))
  }

  /** Every watcher of the tenant gets one catalog, marked with its own selection. */
  ghost predicate CatalogRound(notes: seq<Note>, tenant: Tenant) {
    && Enumerates(Recipients(notes), tenant.watchers.Keys)
    && (forall i :: 0 <= i < |notes| ==>
        notes[i].to in tenant.watchers && CatalogOf(notes[i].body, tenant, tenant.watchers[notes[i].to]))
  }

  ghost predicate FanOut(notes: seq<Note>, to: set<SessionId>, body: Message) {
    Enumerates(Recipients(notes), to) && (forall i :: 0 <= i < |notes| ==> notes[i].body == body)
  }

  /** Catalogs for everybody, then the state change for everybody. */
  ghost predicate CatalogsThenState(notes: seq<Note>, tenant: Tenant, body: Message) {
    exists k :: 0 <= k <= |notes| && CatalogRound(notes[..k], tenant) && FanOut(notes[k..], tenant.watchers.Keys, body)
  }

  ghost function Selecting(tenant: Tenant, name: string): set<SessionId> {
    set id | id in tenant.watchers && tenant.watchers[id] == name
  }

  function SnapshotOf(source: Source): Message {
    Snapshot(source.name, source.active.Some?, source.lastStatus)
  }

  /** What a critical section hands to the code after it: a refusal, a session to close, a reply, notifications. */
  datatype Output = Output(
    refused: bool, evicted: Option<Ingest>, announced: Option<Transition>, reply: Option<Message>, notes: seq<Note>)

  const SILENT := Output(false, None, None, None, [])

  function OwnerOf(st: State, tenant: string, source: string): Option<Ingest> {
    if Known(st, tenant, source) then st[tenant].sources[source].active else None
  }

  function Announced(st: State, op: Op): Option<Transition> {
    match op
    case RegisterIngestOp(s, _) =>
      if Refuses(st, s) then None
      else if OwnerOf(st, s.tenant, s.source).Some? then Some(Replaced) else Some(Online)
    case UnregisterIngestOp(s, replaced, _) => if Owns(st, s) && !replaced then Some(Offline) else None
    case _ => None
  }

  ghost predicate Emits(st: State, op: Op, out: Output) {
    match op
    case RegisterIngestOp(s, now) =>
      var after := Apply(st, op);
      if Refuses(st, s) then out == SILENT.(refused := true)
      else
        && out == Output(false, OwnerOf(st, s.tenant, s.source), Announced(st, op), None, out.notes)
        && CatalogsThenState(out.notes, after[s.tenant], SourceState(s.source, Announced(st, op).value))
    case UnregisterIngestOp(s, replaced, now) =>
      if !Owns(st, s) then out == SILENT
      else
        var source := st[s.tenant].sources[s.source];
        var tenant := WithSource(st, s.tenant, s.source, source.(active := None, lastSeen := now))[s.tenant];
        && out == Output(false, None, Announced(st, op), None, out.notes)
        && (if replaced then CatalogRound(out.notes, tenant)
            else CatalogsThenState(out.notes, tenant, SourceState(s.source, Offline)))
    case RegisterWatchOp(t, id) =>
      && out == SILENT.(reply := out.reply)
      && out.reply.Some? && CatalogOf(out.reply.value, TenantOrNew(st, t), "")
    case UnregisterWatchOp(_, _) => out == SILENT
    case SelectSourceOp(t, id, name) =>
      && out == SILENT.(notes := out.notes)
      && (if !Known(st, t, name) then out.notes == [Note(id, SelectResult(false, name, "source_not_found"))]
          else
            && |out.notes| == 3
            && out.notes[0] == Note(id, SelectResult(true, name, ""))
            && out.notes[1].to == id && CatalogOf(out.notes[1].body, st[t], name)
            && out.notes[2] == Note(id, SnapshotOf(st[t].sources[name])))
    case IngestEventOp(s, number, frame, _) =>
      && out == SILENT.(notes := out.notes)
      && (if !Accepts(st, s, number) then out.notes == []
          else FanOut(out.notes, Selecting(st[s.tenant], s.source), Event(Sanitize(s.source, frame))))
  }

  // ---------------------------------------------------------------- what each watcher receives

  lemma FanOutBringsOne(notes: seq<Note>, to: set<SessionId>, body: Message, id: SessionId)
    requires FanOut(notes, to, body)
    ensures MessagesFor(notes, id) == if id in to then [body] else []
  {
    if id in to {
      var i :| 0 <= i < |notes| && Recipients(notes)[i] == id;
      OneMessageEach(notes, i);
    } else {
      NothingForStrangers(notes, id);
    }
  }

  lemma CatalogRoundBringsOne(notes: seq<Note>, tenant: Tenant, id: SessionId)
    requires CatalogRound(notes, tenant)
    ensures id !in tenant.watchers ==> MessagesFor(notes, id) == []
    ensures id in tenant.watchers ==>
              |MessagesFor(notes, id)| == 1 && CatalogOf(MessagesFor(notes, id)[0], tenant, tenant.watchers[id])
  {
    if id in tenant.watchers {
      assert id in Recipients(notes);
      var i :| 0 <= i < |notes| && Recipients(notes)[i] == id;
      OneMessageEach(notes, i);
    } else {
      NothingForStrangers(notes, id);
    }
  }

  lemma CatalogsThenStateBringsTwo(notes: seq<Note>, tenant: Tenant, body: Message, id: SessionId)
    requires CatalogsThenState(notes, tenant, body)
    ensures id !in tenant.watchers ==> MessagesFor(notes, id) == []
    ensures id in tenant.watchers ==>
              && |MessagesFor(notes, id)| == 2
              && CatalogOf(MessagesFor(notes, id)[0], tenant, tenant.watchers[id])
              && MessagesFor(notes, id)[1] == body
  {
    hide CatalogRound, FanOut, CatalogOf, MessagesFor;
    var k :| 0 <= k <= |notes| && CatalogRound(notes[..k], tenant) && FanOut(notes[k..], tenant.watchers.Keys, body);
    assert notes == notes[..k] + notes[k..];
    MessagesForConcat(notes[..k], notes[k..], id);
    CatalogRoundBringsOne(notes[..k], tenant, id);
    FanOutBringsOne(notes[k..], tenant.watchers.Keys, body, id);
  }

  /**
   Fan-out exactness. An accepted event reaches each watcher of the tenant that selected its source once, under the
   session's own source name, and nobody else; a frame that is not accepted reaches nobody.
   */
  lemma EventFanOut(st: State, s: Ingest, number: uint64, frame: Frame, now: int, out: Output, id: SessionId)
    requires Emits(st, IngestEventOp(s, number, frame, now), out)
    ensures MessagesFor(out.notes, id) ==
            if Accepts(st, s, number) && id in st[s.tenant].watchers && st[s.tenant].watchers[id] == s.source
            then [Event(Live(frame.kind, s.source, frame.client, if frame.kind.Activity? then "" else frame.payload))]
            else []
  {
    if Accepts(st, s, number) {
      FanOutBringsOne(out.notes, Selecting(st[s.tenant], s.source), Event(Sanitize(s.source, frame)), id);
    }
  }

  // ---------------------------------------------------------------- what a catalog says

  ghost predicate WellNamed(sources: map<string, Source>) {
    forall n :: n in sources ==> sources[n].name == n
  }

  /** One entry for each source and no others, with its display name or else its name, online while it is fed. */
  ghost predicate Lists(entries: seq<Descriptor>, sources: map<string, Source>) {
    && (forall i :: 0 <= i < |entries| ==>
        && entries[i].name in sources
        && (entries[i].online <==> sources[entries[i].name].active.Some?)
        && entries[i].display == (if sources[entries[i].name].display == "" then entries[i].name
                                  else sources[entries[i].name].display))
    && (forall i, j :: 0 <= i < j < |entries| ==> entries[i].name != entries[j].name)
    && (forall n :: n in sources ==> exists i :: 0 <= i < |entries| && entries[i].name == n)
  }

  lemma CatalogLists(body: Message, tenant: Tenant, current: string)
    requires CatalogOf(body, tenant, current) && WellNamed(tenant.sources)
    ensures Lists(body.sources, tenant.sources)
    ensures forall i :: 0 <= i < |body.sources| ==>
              body.sources[i].name in tenant.sources
              && body.sources[i].lastSeen == tenant.sources[body.sources[i].name].lastSeen
  {
    var entries, all := body.sources, Descriptors(tenant);
    forall i | 0 <= i < |entries|
      ensures entries[i].name in tenant.sources && entries[i] == Describe(tenant.sources[entries[i].name])
    {
      assert entries[i] in all;
      var n :| n in tenant.sources && entries[i] == Describe(tenant.sources[n]);
    }
    forall n | n in tenant.sources
      ensures exists i :: 0 <= i < |entries| && entries[i].name == n
    {
      assert Describe(tenant.sources[n]) in all;
      var i :| 0 <= i < |entries| && entries[i] == Describe(tenant.sources[n]);
    }
  }

  /** A change that touches neither display name nor activity changes no listing. */
  lemma SameListing(entries: seq<Descriptor>, sources: map<string, Source>, name: string, source: Source)
    requires Lists(entries, sources) && name in sources
    requires source.display == sources[name].display && (source.active.Some? <==> sources[name].active.Some?)
    ensures Lists(entries, sources[name := source])
  {
    assert sources[name := source].Keys == sources.Keys;
  }

  lemma MessagesForOne(note: Note, id: SessionId)
    ensures MessagesFor([note], id) == if note.to == id then [note.body] else []
  {
    assert [note][1..] == [];
  }

  lemma MessagesForThree(a: Note, b: Note, c: Note, id: SessionId)
    requires a.to == b.to == c.to
    ensures MessagesFor([a, b, c], id) == if a.to == id then [a.body, b.body, c.body] else []
  {
    assert [a, b, c] == [a] + ([b] + [c]);
    MessagesForConcat([a], [b] + [c], id);
    MessagesForConcat([b], [c], id);
    MessagesForOne(a, id);
    MessagesForOne(b, id);
    MessagesForOne(c, id);
  }

  /** The answer to a selection reaches the session that asked, and nobody else. */
  lemma SelectReplies(st: State, t: string, id: SessionId, name: string, out: Output, reader: SessionId)
    requires Emits(st, SelectSourceOp(t, id, name), out)
    ensures reader != id ==> MessagesFor(out.notes, reader) == []
    ensures !Known(st, t, name) ==> MessagesFor(out.notes, id) == [SelectResult(false, name, "source_not_found")]
    ensures Known(st, t, name) ==>
              && |out.notes| == 3 && CatalogOf(out.notes[1].body, st[t], name)
              && MessagesFor(out.notes, id) ==
                 [SelectResult(true, name, ""), out.notes[1].body, SnapshotOf(st[t].sources[name])]
  {
    hide MessagesFor;
    var notes := out.notes;
    if Known(st, t, name) {
      assert notes == [notes[0], notes[1], notes[2]];
      MessagesForThree(notes[0], notes[1], notes[2], reader);
      MessagesForThree(notes[0], notes[1], notes[2], id);
    } else {
      MessagesForOne(notes[0], reader);
      MessagesForOne(notes[0], id);
    }
  }
}
