/**
 The server's data structures and critical sections as the program has them: maps of objects updated in place. Every
 method is proved to make exactly the state change `Apply` and to produce outputs allowed by `Emits`.
 */
module RelayServer {
  import opened Basics
  import opened SequenceWindows
  import opened Protocol
  import opened ServerModel
  import opened Sessions

  /** `home` is the tenant this object was made for: valid tenants with different ids share no source. */
  class SourceRuntime {
    const name: string
    ghost const home: string
    var displayName: string
    var lastSeen: int
    var lastStatus: Option<Live>
    var activeIngest: IngestSession?
    const recentSeq: SequenceWindow

    constructor (name: string, displayName: string, ghost home: string)
      ensures this.name == name && this.home == home
      ensures fresh(recentSeq) && recentSeq.max == WINDOW && recentSeq.home == (home, name) && recentSeq.Valid()
      ensures activeIngest == null && View() == Source(name, displayName, 0, None, None, [])
    {
      this.name, this.displayName, this.home := name, displayName, home;
      lastSeen, lastStatus, activeIngest := 0, None, null;
      recentSeq := new SequenceWindow(WINDOW, (home, name));
    }

    ghost function View(): Source
      reads this, recentSeq
    {
      Source(name, displayName, lastSeen, lastStatus,
             if activeIngest == null then None else Some(activeIngest.Info()), recentSeq.accepted)
    }

    /** The object is filed under this name in this tenant, and looks like this value. */
    ghost predicate Proper(n: string, tenantID: string, value: Source)
      reads this, recentSeq
    {
      && name == n && home == tenantID
      && recentSeq.home == (tenantID, n) && recentSeq.max == WINDOW && recentSeq.Valid()
      && (activeIngest != null ==> activeIngest.sourceName == n && activeIngest.base.tenantID == tenantID)
      && value == View()
    }
  }

  /** `view` is the tenant as a value; Valid() keeps it in step with the objects. */
  class TenantRuntime {
    const id: string
    var sources: map<string, SourceRuntime>
    var watchers: map<SessionId, WatchSession>
    ghost var view: Tenant

    constructor (id: string)
      ensures this.id == id && sources == map[] && watchers == map[] && view == Tenant(map[], map[])
    {
      this.id := id;
      sources, watchers, view := map[], map[], Tenant(map[], map[]);
    }

    ghost predicate ProperSource(n: string)
      requires n in sources
      reads this, sources[n], sources[n].recentSeq
    {
      n in view.sources && sources[n].Proper(n, id, view.sources[n])
    }

    ghost predicate ProperWatcher(w: SessionId)
      requires w in watchers
      reads this, watchers[w]
    {
      && watchers[w].base.id == w && watchers[w].base.tenantID == id
      && w in view.watchers && view.watchers[w] == watchers[w].selectedSource
    }

    ghost function Windows(): set<SequenceWindow>
      reads this
    {
      set n | n in sources :: sources[n].recentSeq
    }

    ghost predicate Valid()
      reads this, sources.Values, Windows(), watchers.Values
      ensures Valid() ==> view.sources.Keys == sources.Keys
    {
      && view.sources.Keys == sources.Keys
      && view.watchers.Keys == watchers.Keys
      && (forall n :: n in sources ==> ProperSource(n))
      && (forall w :: w in watchers ==> ProperWatcher(w))
    }

    /** No object of this tenant has changed, unless it is really one of tenant t. */
    twostate predicate Spared(t: string)
      reads this, sources.Values, Windows(), watchers.Values
    {
      && unchanged(this)
      && (forall n :: n in sources && sources[n].home != t ==> unchanged(sources[n]))
      && (forall n :: n in sources && sources[n].recentSeq.home.0 != t ==> unchanged(sources[n].recentSeq))
      && (forall w :: w in watchers && watchers[w].base.tenantID != t ==>
          watchers[w].selectedSource == old(watchers[w].selectedSource))
    }

    /** Whatever changes objects of tenant t only, keeps every other tenant valid. */
    twostate lemma Untouched(t: string)
      requires old(Valid()) && Spared(t) && id != t
      ensures Valid()
    {
      forall n | n in sources
        ensures ProperSource(n)
      {
        assert old(ProperSource(n));
      }
      forall w | w in watchers
        ensures ProperWatcher(w)
      {
        assert old(ProperWatcher(w));
      }
    }

    lemma Empty()
      requires sources == map[] && watchers == map[] && view == Tenant(map[], map[])
      ensures Valid()
    {}

    /** The objects the tenant consists of, next to its watchers. */
    ghost function Owned(): set<object>
      reads this
    {
      {this as object} + (set n | n in sources :: sources[n] as object)
      + (set n | n in sources :: sources[n].recentSeq as object)
    }

    lemma Homes()
      requires Valid()
      ensures this in Owned()
      ensures forall r: TenantRuntime :: r in Owned() ==> r == this
      ensures forall s: SourceRuntime :: s in Owned() ==> s.home == id
      ensures forall w: SequenceWindow :: w in Owned() ==> w.home.0 == id
      ensures forall w: WatchSession :: w !in Owned()
      ensures forall s: Server :: s !in Owned()
    {
      assert forall n :: n in sources ==> ProperSource(n);
    }

    /**
     Restores the invariant after the fields of one source, or its place in the map, were changed. Everything else in
     the tenant must be as it was.
     */
    twostate lemma SourceChanged(n: string)
      requires old(Valid())
      requires n in sources
      requires sources[n].Proper(n, id, sources[n].View())
      requires sources == old(sources)[n := sources[n]] && watchers == old(watchers)
      requires view == old(view).(sources := old(view).sources[n := sources[n].View()])
      requires forall m :: m in sources && m != n ==> unchanged(sources[m]) && unchanged(sources[m].recentSeq)
      requires forall w :: w in watchers ==> watchers[w].selectedSource == old(watchers[w].selectedSource)
      ensures Valid()
    {
      forall m | m in sources && m != n
        ensures ProperSource(m)
      {
        assert old(ProperSource(m));
      }
      forall w | w in watchers
        ensures ProperWatcher(w)
      {
        assert old(ProperWatcher(w));
      }
    }
  }

  /** The abstract form of a notification. The program's lists never hold a nil session or envelope. */
  function NoteOf(n: OutboundNotification): Note {
    Note(if n.session == null then "" else n.session.base.id,
         if n.envelope == null then Control("") else n.envelope.body)
  }

  function NotesOf(notes: seq<OutboundNotification>): (r: seq<Note>)
    ensures |r| == |notes|
  {
    seq(|notes|, i requires 0 <= i < |notes| => NoteOf(notes[i]))
  }

  /** What a list addresses to a session object is what it addresses to its id, as long as ids are unique. */
  lemma {:induction false} BodiesForAreMessages(notes: seq<OutboundNotification>, session: WatchSession)
    requires forall i :: 0 <= i < |notes| ==> notes[i].session != null && notes[i].envelope != null
    requires forall i :: 0 <= i < |notes| && notes[i].session.base.id == session.base.id ==> notes[i].session == session
    ensures BodiesFor(notes, session) == MessagesFor(NotesOf(notes), session.base.id)
  {
    if notes != [] {
      var before, last := notes[..|notes| - 1], notes[|notes| - 1];
      BodiesForAreMessages(before, session);
      assert NotesOf(notes) == NotesOf(before) + [NoteOf(last)];
      MessagesForConcat(NotesOf(before), [NoteOf(last)], session.base.id);
      MessagesForOne(NoteOf(last), session.base.id);
    }
  }

  ghost function EnvelopesOf(notes: seq<OutboundNotification>): set<Envelope> {
    set i | 0 <= i < |notes| && notes[i].envelope != null :: notes[i].envelope
  }

  /** Every entry has a session out of `watchers`, and an envelope that is not numbered yet. */
  ghost predicate Addressed(notes: seq<OutboundNotification>, watchers: set<WatchSession>)
    reads EnvelopesOf(notes)
  {
    forall i :: 0 <= i < |notes| ==>
      && notes[i].session != null && notes[i].session in watchers
      && notes[i].envelope != null && notes[i].envelope.number == 0
  }

  // ---------------------------------------------------------------- growing lists, one element at a time

  lemma EnumeratesSnoc<T(!new)>(s: seq<T>, all: set<T>, x: T)
    requires Enumerates(s, all) && x !in all
    ensures Enumerates(s + [x], all + {x})
  {
    assert forall i :: 0 <= i < |s| ==> s[i] in s;
  }

  lemma NotesSnoc(notes: seq<OutboundNotification>, n: OutboundNotification)
    ensures NotesOf(notes + [n]) == NotesOf(notes) + [NoteOf(n)]
    ensures Recipients(NotesOf(notes + [n])) == Recipients(NotesOf(notes)) + [NoteOf(n).to]
  {}

  lemma NotesConcat(a: seq<OutboundNotification>, b: seq<OutboundNotification>)
    ensures NotesOf(a + b) == NotesOf(a) + NotesOf(b)
  {}

  /** The catalog entries built when the loop has visited `done`. */
  ghost predicate CatalogSoFar(entries: seq<Descriptor>, tenant: Tenant, done: set<string>) {
    && done <= tenant.sources.Keys
    && Enumerates(entries, set n | n in done :: Describe(tenant.sources[n]))
  }

  lemma CatalogGrows(entries: seq<Descriptor>, tenant: Tenant, done: set<string>, n: string)
    requires WellNamed(tenant.sources) && CatalogSoFar(entries, tenant, done) && n in tenant.sources && n !in done
    ensures CatalogSoFar(entries + [Describe(tenant.sources[n])], tenant, done + {n})
  {
    var all, d := set m | m in done :: Describe(tenant.sources[m]), Describe(tenant.sources[n]);
    assert d !in all;
    EnumeratesSnoc(entries, all, d);
    assert (set m | m in done + {n} :: Describe(tenant.sources[m])) == all + {d};
  }

  ghost predicate RoundSoFar(notes: seq<Note>, tenant: Tenant, done: set<SessionId>) {
    && Enumerates(Recipients(notes), done)
    && (forall i :: 0 <= i < |notes| ==>
        notes[i].to in tenant.watchers && CatalogOf(notes[i].body, tenant, tenant.watchers[notes[i].to]))
  }

  lemma RoundGrows(notes: seq<OutboundNotification>, tenant: Tenant, done: set<SessionId>, n: OutboundNotification)
    requires RoundSoFar(NotesOf(notes), tenant, done)
    requires NoteOf(n).to in tenant.watchers && NoteOf(n).to !in done
    requires CatalogOf(NoteOf(n).body, tenant, tenant.watchers[NoteOf(n).to])
    ensures RoundSoFar(NotesOf(notes + [n]), tenant, done + {NoteOf(n).to})
  {
    NotesSnoc(notes, n);
    EnumeratesSnoc(Recipients(NotesOf(notes)), done, NoteOf(n).to);
  }

  lemma FanOutGrows(notes: seq<OutboundNotification>, to: set<SessionId>, body: Message, n: OutboundNotification)
    requires FanOut(NotesOf(notes), to, body) && NoteOf(n).body == body && NoteOf(n).to !in to
    ensures FanOut(NotesOf(notes + [n]), to + {NoteOf(n).to}, body)
  {
    NotesSnoc(notes, n);
    EnumeratesSnoc(Recipients(NotesOf(notes)), to, NoteOf(n).to);
  }

  lemma Join(catalogs: seq<Note>, states: seq<Note>, tenant: Tenant, body: Message)
    requires CatalogRound(catalogs, tenant) && FanOut(states, tenant.watchers.Keys, body)
    ensures CatalogsThenState(catalogs + states, tenant, body)
  {
    var k := |catalogs|;
    assert (catalogs + states)[..k] == catalogs && (catalogs + states)[k..] == states;
  }

  // ---------------------------------------------------------------- loops over a tenant

  /** One entry for each source object and no others: its display name or else its name, online while it is fed. */
  ghost predicate ListsObjects(entries: seq<Descriptor>, tenant: TenantRuntime)
    reads tenant, tenant.sources.Values
  {
    && (forall n :: n in tenant.sources ==> exists i :: 0 <= i < |entries| && entries[i].name == n)
    && (forall i, j :: 0 <= i < j < |entries| ==> entries[i].name != entries[j].name)
    && (forall i :: 0 <= i < |entries| ==>
        && entries[i].name in tenant.sources
        && (var source := tenant.sources[entries[i].name];
            && (entries[i].online <==> source.activeIngest != null)
            && entries[i].display == (if source.displayName == "" then entries[i].name else source.displayName)
            && entries[i].lastSeen == source.lastSeen))
  }

  lemma ViewListsObjects(catalog: Message, tenant: TenantRuntime, current: string)
    requires tenant.Valid() && CatalogOf(catalog, tenant.view, current)
    ensures ListsObjects(catalog.sources, tenant)
  {
    assert forall n :: n in tenant.sources ==> tenant.ProperSource(n);
    CatalogLists(catalog, tenant.view, current);
    hide CatalogOf;
  }

  method CollectEntries(tenant: TenantRuntime) returns (entries: seq<Descriptor>)
    requires tenant.Valid()
    ensures tenant.Valid() && Enumerates(entries, Descriptors(tenant.view))
  {
    ghost var view := tenant.view;
    entries := [];
    var rest := tenant.sources.Keys;
    while rest != {}
      invariant rest <= view.sources.Keys
      invariant CatalogSoFar(entries, view, view.sources.Keys - rest)
      decreases rest
    {
      var name :| name in rest;
      var source := tenant.sources[name];
      var displayName := if source.displayName == "" then source.name else source.displayName;
      var entry := Descriptor(source.name, displayName, source.activeIngest != null, source.lastSeen);
      assert view.sources[name] == source.View();
      CatalogGrows(entries, view, view.sources.Keys - rest, name);
      assert view.sources.Keys - (rest - {name}) == (view.sources.Keys - rest) + {name};
      entries := entries + [entry];
      rest := rest - {name};
    }
    assert view.sources.Keys - rest == view.sources.Keys;
    assert Descriptors(view) == set n | n in view.sources.Keys :: Describe(view.sources[n]);
  }

  method BuildCatalog(tenant: TenantRuntime, currentSource: string) returns (catalog: Message)
    requires tenant.Valid()
    ensures CatalogOf(catalog, tenant.view, currentSource)
    ensures catalog.Catalog? && catalog.current == currentSource && ListsObjects(catalog.sources, tenant)
  {
    hide TenantRuntime.Valid, ListsObjects;
    var entries := CollectEntries(tenant);
    catalog := Catalog(entries, currentSource);
    ViewListsObjects(catalog, tenant, currentSource);
  }

  method BuildTenantCatalogNotifications(tenant: TenantRuntime) returns (notes: seq<OutboundNotification>)
    requires tenant.Valid()
    ensures Addressed(notes, tenant.watchers.Values)
    ensures tenant.Valid()
    ensures CatalogRound(NotesOf(notes), tenant.view)
  {
    hide SourceRuntime.Proper, CatalogOf, ListsObjects;
    ghost var view := tenant.view;
    notes := [];
    var rest := tenant.watchers.Keys;
    while rest != {}
      invariant rest <= view.watchers.Keys
      invariant tenant.Valid()
      invariant Addressed(notes, tenant.watchers.Values)
      invariant RoundSoFar(NotesOf(notes), view, view.watchers.Keys - rest)
      decreases rest
    {
      var id :| id in rest;
      var watcher := tenant.watchers[id];
      var catalog := BuildCatalog(tenant, watcher.selectedSource);
      var envelope := new Envelope(catalog);
      var n := OutboundNotification(watcher, envelope);
      RoundGrows(notes, view, view.watchers.Keys - rest, n);
      assert view.watchers.Keys - (rest - {id}) == (view.watchers.Keys - rest) + {id};
      notes := notes + [n];
      rest := rest - {id};
    }
    assert view.watchers.Keys - rest == view.watchers.Keys;
  }

  method BuildTenantStateNotifications(tenant: TenantRuntime, event: Message) returns (notes: seq<OutboundNotification>)
    requires tenant.Valid()
    ensures Addressed(notes, tenant.watchers.Values)
    ensures tenant.Valid()
    ensures FanOut(NotesOf(notes), tenant.view.watchers.Keys, event)
  {
    hide SourceRuntime.Proper, CatalogOf, ListsObjects;
    notes := [];
    var rest := tenant.watchers.Keys;
    ghost var done: set<SessionId> := {};
    while rest != {}
      invariant rest <= tenant.watchers.Keys && done == tenant.watchers.Keys - rest
      invariant tenant.Valid()
      invariant Addressed(notes, tenant.watchers.Values)
      invariant FanOut(NotesOf(notes), done, event)
      decreases rest
    {
      var id :| id in rest;
      var envelope := new Envelope(event);
      var n := OutboundNotification(tenant.watchers[id], envelope);
      FanOutGrows(notes, done, event, n);
      notes := notes + [n];
      rest, done := rest - {id}, done + {id};
    }
    assert done == tenant.watchers.Keys;
  }

  function IdsOf(watchers: seq<WatchSession>): (ids: seq<SessionId>)
    ensures |ids| == |watchers|
  {
    seq(|watchers|, i requires 0 <= i < |watchers| => watchers[i].base.id)
  }

  method SelectedWatchers(tenant: TenantRuntime, sourceName: string) returns (watchers: seq<WatchSession>)
    requires tenant.Valid()
    ensures forall w :: w in watchers ==> w in tenant.watchers.Values
    ensures Enumerates(IdsOf(watchers), Selecting(tenant.view, sourceName))
  {
    ghost var view := tenant.view;
    watchers := [];
    var rest := tenant.watchers.Keys;
    ghost var done: set<SessionId> := {};
    while rest != {}
      invariant rest <= tenant.watchers.Keys && done == Selecting(view, sourceName) - rest
      invariant forall w :: w in watchers ==> w in tenant.watchers.Values
      invariant Enumerates(IdsOf(watchers), done)
      decreases rest
    {
      var id :| id in rest;
      var watcher := tenant.watchers[id];
      if watcher.selectedSource == sourceName {
        EnumeratesSnoc(IdsOf(watchers), done, id);
        assert IdsOf(watchers + [watcher]) == IdsOf(watchers) + [id];
        watchers, done := watchers + [watcher], done + {id};
      }
      rest := rest - {id};
    }
    assert done == Selecting(view, sourceName);
  }

  /** Every watcher is sent the same envelope object. */
  method WrapWatchNotifications(watchers: seq<WatchSession>, envelope: Envelope)
    returns (notes: seq<OutboundNotification>)
    ensures |notes| == |watchers|
    ensures forall i :: 0 <= i < |notes| ==> notes[i] == OutboundNotification(watchers[i], envelope)
    ensures Recipients(NotesOf(notes)) == IdsOf(watchers)
  {
    notes := [];
    for i := 0 to |watchers|
      invariant |notes| == i && forall j :: 0 <= j < i ==> notes[j] == OutboundNotification(watchers[j], envelope)
    {
      notes := notes + [OutboundNotification(watchers[i], envelope)];
    }
  }


  // ---------------------------------------------------------------- critical sections, inside one tenant

  method GetOrCreateSource(tenant: TenantRuntime, session: IngestSession) returns (source: SourceRuntime)
    requires tenant.Valid() && session.base.tenantID == tenant.id
    modifies tenant
    ensures tenant.Valid() && tenant.watchers == old(tenant.watchers)
    ensures session.sourceName in tenant.sources && source == tenant.sources[session.sourceName]
    ensures source in old(tenant.sources.Values) || fresh(source)
    ensures source.activeIngest == old(FeederOf(tenant, session.sourceName))
    ensures source.View() == SourceOrNew(old(tenant.view), session.Info())
    ensures tenant.view == old(tenant.view).(sources := old(tenant.view).sources[session.sourceName := source.View()])
  {
    var name := session.sourceName;
    if name in tenant.sources {
      source := tenant.sources[name];
      assert tenant.ProperSource(name);
      assert tenant.view.sources[name := tenant.view.sources[name]] == tenant.view.sources;
    } else {
      source := new SourceRuntime(name, session.sourceDisplayName, tenant.id);
      tenant.sources := tenant.sources[name := source];
      tenant.view := tenant.view.(sources := tenant.view.sources[name := source.View()]);
      tenant.SourceChanged(name);
    }
  }

  /** Catalogs for every watcher of the tenant, then the state event for every watcher. */
  method BuildStateChange(tenant: TenantRuntime, event: Message) returns (notes: seq<OutboundNotification>)
    requires tenant.Valid()
    ensures Addressed(notes, tenant.watchers.Values)
    ensures tenant.Valid()
    ensures CatalogsThenState(NotesOf(notes), tenant.view, event)
  {
    hide TenantRuntime.Valid, CatalogRound, FanOut, CatalogsThenState;
    var catalogs := BuildTenantCatalogNotifications(tenant);
    var states := BuildTenantStateNotifications(tenant, event);
    Join(NotesOf(catalogs), NotesOf(states), tenant.view, event);
    NotesConcat(catalogs, states);
    notes := catalogs + states;
  }

  /** The session object itself feeds the source, and gave it its display name. */
  ghost predicate FedBy(tenant: TenantRuntime, session: IngestSession, now: int)
    reads tenant, tenant.sources.Values
  {
    && session.sourceName in tenant.sources
    && (var source := tenant.sources[session.sourceName];
        source.activeIngest == session && source.displayName == session.sourceDisplayName && source.lastSeen == now)
  }

  /** The session object that feeds the source so far. */
  ghost function FeederOf(tenant: TenantRuntime, name: string): IngestSession?
    reads tenant, tenant.sources.Values
  {
    if name in tenant.sources then tenant.sources[name].activeIngest else null
  }

  /** The assignments to a source that registerIngest makes. */
  method Activate(tenant: TenantRuntime, source: SourceRuntime, session: IngestSession, now: int)
    requires tenant.Valid() && session.base.tenantID == tenant.id
    requires session.sourceName in tenant.sources && tenant.sources[session.sourceName] == source
    modifies source`activeIngest, source`displayName, source`lastSeen, tenant`view
    ensures tenant.Valid() && FedBy(tenant, session, now)
    ensures tenant.view == old(tenant.view).(sources := old(tenant.view).sources[session.sourceName :=
              old(source.View()).(active := Some(session.Info()), display := session.sourceDisplayName,
                                  lastSeen := now)])
  {
    assert tenant.ProperSource(session.sourceName);
    source.activeIngest := session;
    source.displayName := session.sourceDisplayName;
    source.lastSeen := now;
    tenant.view := tenant.view.(sources := tenant.view.sources[session.sourceName := source.View()]);
    tenant.SourceChanged(session.sourceName);
  }

  method Deactivate(tenant: TenantRuntime, name: string, source: SourceRuntime, now: int)
    requires tenant.Valid() && name in tenant.sources && tenant.sources[name] == source
    modifies source`activeIngest, source`lastSeen, tenant`view
    ensures tenant.Valid()
    ensures tenant.view == old(tenant.view).(sources := old(tenant.view).sources[name :=
              old(source.View()).(active := None, lastSeen := now)])
  {
    assert tenant.ProperSource(name);
    source.activeIngest := null;
    source.lastSeen := now;
    tenant.view := tenant.view.(sources := tenant.view.sources[name := source.View()]);
    tenant.SourceChanged(name);
  }

  /** What cleanupTenantLocked looks for. */
  method Deserted(tenant: TenantRuntime) returns (deserted: bool)
    requires tenant.Valid()
    ensures deserted <==> tenant.view.watchers == map[] && !HasActiveIngest(tenant.view)
  {
    if |tenant.watchers| > 0 {
      assert tenant.view.watchers.Keys == tenant.watchers.Keys != {};
      return false;
    }
    var rest := tenant.sources.Keys;
    while rest != {}
      invariant rest <= tenant.sources.Keys
      invariant forall n :: n in tenant.sources && n !in rest ==> tenant.sources[n].activeIngest == null
      decreases rest
    {
      var name :| name in rest;
      assert tenant.ProperSource(name);
      if tenant.sources[name].activeIngest != null {
        assert tenant.view.sources[name].active.Some?;
        return false;
      }
      rest := rest - {name};
    }
    assert forall n :: n in tenant.sources ==> tenant.ProperSource(n);
    assert tenant.view.watchers.Keys == tenant.watchers.Keys == {};
    return true;
  }

  /** What registering s makes of its tenant, and tells the tenant's watchers. */
  ghost predicate Admits(before: Tenant, s: Ingest, now: int, after: Tenant, refused: bool, replaced: Option<Ingest>,
                         notes: seq<Note>)
  {
    var source := SourceOrNew(before, s);
    && refused == Busy(source, s)
    && after == before.(sources := before.sources[s.source := if refused then source else Activated(source, s, now)])
    && (refused ==> replaced == None && notes == [])
    && (!refused ==>
        && replaced == source.active
        && CatalogsThenState(notes, after, SourceState(s.source, if replaced.Some? then Replaced else Online)))
  }

  lemma AdmissionIsRegistration(st: State, s: Ingest, now: int, after: Tenant, refused: bool, replaced: Option<Ingest>,
                                notes: seq<Note>)
    requires Admits(TenantOrNew(st, s.tenant), s, now, after, refused, replaced, notes)
    ensures st[s.tenant := after] == Apply(st, RegisterIngestOp(s, now))
    ensures Emits(st, RegisterIngestOp(s, now),
                  Output(refused, replaced, Announced(st, RegisterIngestOp(s, now)), None, notes))
  {
    assert st[s.tenant := after] == Apply(st, RegisterIngestOp(s, now));
  }

  function InfoOf(session: IngestSession?): Option<Ingest> {
    if session == null then None else Some(session.Info())
  }

  lemma Overwrite<V>(m: map<string, V>, key: string, first: V, second: V)
    ensures m[key := first][key := second] == m[key := second]
  {}

  function Activated(source: Source, s: Ingest, now: int): Source {
    source.(active := Some(s), display := s.display, lastSeen := now)
  }

  /** The session becomes the active one, and everybody is told. */
  method TakeOver(tenant: TenantRuntime, source: SourceRuntime, session: IngestSession, now: int,
                  transition: Transition)
    returns (notes: seq<OutboundNotification>)
    requires tenant.Valid() && session.base.tenantID == tenant.id
    requires session.sourceName in tenant.sources && tenant.sources[session.sourceName] == source
    modifies source`activeIngest, source`displayName, source`lastSeen, tenant`view
    ensures tenant.Valid() && FedBy(tenant, session, now)
    ensures Addressed(notes, tenant.watchers.Values)
    ensures tenant.view == old(tenant.view).(sources := old(tenant.view).sources[session.sourceName :=
              Activated(old(source.View()), session.Info(), now)])
    ensures CatalogsThenState(NotesOf(notes), tenant.view, SourceState(session.sourceName, transition))
  {
    hide TenantRuntime.Valid, CatalogsThenState, FedBy;
    Activate(tenant, source, session, now);
    notes := BuildStateChange(tenant, SourceState(session.sourceName, transition));
  }

  /** registerIngest, between the lookup of the tenant and the release of the lock. */
  method AdmitIngest(tenant: TenantRuntime, session: IngestSession, now: int)
    returns (refused: bool, replaced: IngestSession?, notes: seq<OutboundNotification>)
    requires tenant.Valid() && session.base.tenantID == tenant.id
    modifies tenant.Owned()
    ensures tenant.Valid() && (!refused ==> FedBy(tenant, session, now))
    ensures replaced == if refused then null else old(FeederOf(tenant, session.sourceName))
    ensures Addressed(notes, old(tenant.watchers.Values))
    ensures Admits(old(tenant.view), session.Info(), now, tenant.view, refused, InfoOf(replaced), NotesOf(notes))
  {
    hide CatalogsThenState, SourceRuntime.Proper;
    var source := GetOrCreateSource(tenant, session);
    assert tenant.ProperSource(session.sourceName);
    replaced, notes, refused := null, [], false;
    if source.activeIngest != null {
      if source.activeIngest.base.instanceID != session.base.instanceID {
        return true, null, [];
      }
      replaced := source.activeIngest;
    }
    Overwrite(old(tenant.view).sources, session.sourceName, source.View(),
              Activated(source.View(), session.Info(), now));
    notes := TakeOver(tenant, source, session, now, if replaced != null then Replaced else Online);
  }

  /** What unregistering s makes of its tenant before the cleanup, and tells the tenant's watchers. */
  ghost predicate Releases(before: Tenant, s: Ingest, replaced: bool, now: int, after: Tenant, notes: seq<Note>) {
    if s.source in before.sources && before.sources[s.source].active == Some(s) then
      && after == before.(sources := before.sources[s.source :=
                   before.sources[s.source].(active := None, lastSeen := now)])
      && (if replaced then CatalogRound(notes, after)
          else CatalogsThenState(notes, after, SourceState(s.source, Offline)))
    else after == before && notes == []
  }

  lemma ReleaseIsUnregistration(st: State, s: Ingest, replaced: bool, now: int, after: Tenant, notes: seq<Note>)
    requires s.tenant in st && Releases(st[s.tenant], s, replaced, now, after, notes)
    ensures Cleanup(st[s.tenant := after], s.tenant) == Apply(st, UnregisterIngestOp(s, replaced, now))
    ensures Emits(st, UnregisterIngestOp(s, replaced, now),
                  Output(false, None, Announced(st, UnregisterIngestOp(s, replaced, now)), None, notes))
  {
    assert st[s.tenant := st[s.tenant]] == st;
  }

  lemma UnknownTenant(st: State, s: Ingest, replaced: bool, now: int)
    requires s.tenant !in st
    ensures Apply(st, UnregisterIngestOp(s, replaced, now)) == st
    ensures Emits(st, UnregisterIngestOp(s, replaced, now),
                  SILENT.(announced := Announced(st, UnregisterIngestOp(s, replaced, now))))
  {}

  /** Another session object with the same identity feeds the source: what fresh session ids exclude. */
  ghost predicate Mistaken(tenant: TenantRuntime, session: IngestSession)
    reads tenant, tenant.sources.Values
  {
    && session.sourceName in tenant.sources
    && (var active := tenant.sources[session.sourceName].activeIngest;
        active != null && active != session && active.Info() == session.Info())
  }

  method ReleaseIngest(tenant: TenantRuntime, session: IngestSession, replaced: bool, now: int)
    returns (notes: seq<OutboundNotification>)
    requires tenant.Valid() && session.base.tenantID == tenant.id
    modifies tenant.Owned()
    ensures tenant.Valid()
    ensures Addressed(notes, old(tenant.watchers.Values))
    ensures old(Mistaken(tenant, session)) ==> tenant.view == old(tenant.view) && notes == []
    ensures !old(Mistaken(tenant, session)) ==>
              Releases(old(tenant.view), session.Info(), replaced, now, tenant.view, NotesOf(notes))
  {
    var name := session.sourceName;
    if name !in tenant.sources || tenant.sources[name].activeIngest != session {
      assert name in tenant.sources ==> tenant.ProperSource(name);
      return [];
    }
    assert tenant.ProperSource(name);
    Deactivate(tenant, name, tenant.sources[name], now);
    if replaced {
      notes := BuildTenantCatalogNotifications(tenant);
    } else {
      notes := BuildStateChange(tenant, SourceState(name, Offline));
    }
  }

  /** What one frame of s makes of its tenant, and whom it is sent to. */
  ghost predicate Takes(before: Tenant, s: Ingest, number: uint64, live: Live, now: int, after: Tenant,
                        notes: seq<Note>)
  {
    if && s.source in before.sources && before.sources[s.source].active == Some(s)
       && Passes(before.sources[s.source], s.instance, number)
    then
      && after == before.(sources := before.sources[s.source :=
                   Recorded(before.sources[s.source], s.instance, number, live, now)])
      && FanOut(notes, Selecting(before, s.source), Event(live))
    else after == before && notes == []
  }

  lemma TakingIsIngestEvent(st: State, s: Ingest, number: uint64, frame: Frame, now: int, after: Tenant,
                            notes: seq<Note>)
    requires s.tenant in st && Takes(st[s.tenant], s, number, Sanitize(s.source, frame), now, after, notes)
    ensures st[s.tenant := after] == Apply(st, IngestEventOp(s, number, frame, now))
    ensures Emits(st, IngestEventOp(s, number, frame, now), SILENT.(notes := notes))
  {
    assert st[s.tenant := st[s.tenant]] == st;
  }

  /** The window test of withIngestEvent, and its assignments and those of its closures to the active source. */
  method RecordEvent(source: SourceRuntime, instanceID: string, number: uint64, live: Live, now: int)
    returns (duplicate: bool)
    requires source.recentSeq.Valid() && source.recentSeq.max == WINDOW
    modifies source`lastSeen, source`lastStatus, source.recentSeq
    ensures source.recentSeq.Valid()
    ensures duplicate == !Passes(old(source.View()), instanceID, number)
    ensures source.View() == if duplicate then old(source.View())
                             else Recorded(old(source.View()), instanceID, number, live, now)
  {
    duplicate := false;
    if number != 0 {
      duplicate := source.recentSeq.SeenBefore(instanceID, number);
    }
    if !duplicate {
      source.lastSeen := now;
      if live.kind.Status? {
        source.lastStatus := Some(live);
      }
    }
  }

  method RecordInTenant(tenant: TenantRuntime, name: string, instanceID: string, number: uint64, live: Live, now: int)
    returns (duplicate: bool)
    requires tenant.Valid() && name in tenant.sources
    modifies tenant`view, tenant.sources[name], tenant.sources[name].recentSeq
    ensures tenant.Valid()
    ensures var before := old(tenant.view).sources[name];
            && duplicate == !Passes(before, instanceID, number)
            && tenant.view == (if duplicate then old(tenant.view) else
                 old(tenant.view).(sources :=
                   old(tenant.view).sources[name := Recorded(before, instanceID, number, live, now)]))
  {
    hide Recorded, Passes;
    assert forall m :: m in tenant.sources ==> tenant.ProperSource(m);
    hide SequenceWindow.Valid;
    ghost var sources := tenant.view.sources;
    duplicate := RecordEvent(tenant.sources[name], instanceID, number, live, now);
    tenant.view := tenant.view.(sources := sources[name := tenant.sources[name].View()]);
    assert duplicate ==> sources[name := sources[name]] == sources;
    tenant.SourceChanged(name);
  }

  method TakeEvent(tenant: TenantRuntime, session: IngestSession, number: uint64, live: Live, now: int)
    returns (notes: seq<OutboundNotification>)
    requires tenant.Valid() && session.base.tenantID == tenant.id
    modifies tenant.Owned()
    ensures tenant.Valid()
    ensures Addressed(notes, old(tenant.watchers.Values))
    ensures old(Mistaken(tenant, session)) ==> tenant.view == old(tenant.view) && notes == []
    ensures !old(Mistaken(tenant, session)) ==>
              Takes(old(tenant.view), session.Info(), number, live, now, tenant.view, NotesOf(notes))
  {
    var name := session.sourceName;
    assert name in tenant.sources ==> tenant.ProperSource(name);
    if name !in tenant.sources || tenant.sources[name].activeIngest != session {
      return [];
    }
    var duplicate := RecordInTenant(tenant, name, session.base.instanceID, number, live, now);
    if duplicate {
      return [];
    }
    notes := NotifySelected(tenant, name, Event(live));
  }

  method NotifySelected(tenant: TenantRuntime, name: string, event: Message) returns (notes: seq<OutboundNotification>)
    requires tenant.Valid()
    ensures Addressed(notes, tenant.watchers.Values)
    ensures tenant.Valid()
    ensures FanOut(NotesOf(notes), Selecting(tenant.view, name), event)
  {
    var watchers := SelectedWatchers(tenant, name);
    var envelope := new Envelope(event);
    notes := WrapWatchNotifications(watchers, envelope);
  }

  /** Restores the invariant after the watchers, or the selection of one of them, were changed. */
  twostate lemma WatchersChanged(tenant: TenantRuntime)
    requires old(tenant.Valid())
    requires tenant.sources == old(tenant.sources) && tenant.view.sources == old(tenant.view.sources)
    requires forall n :: n in tenant.sources ==> unchanged(tenant.sources[n]) && unchanged(tenant.sources[n].recentSeq)
    requires tenant.view.watchers.Keys == tenant.watchers.Keys
    requires forall w :: w in tenant.watchers ==> tenant.ProperWatcher(w)
    ensures tenant.Valid()
  {
    forall n | n in tenant.sources
      ensures tenant.ProperSource(n)
    {
      assert old(tenant.ProperSource(n));
    }
  }

  function Entered(before: Tenant, id: SessionId, selected: string): Tenant {
    before.(watchers := before.watchers[id := selected])
  }

  method EnterWatch(tenant: TenantRuntime, session: WatchSession) returns (catalog: Message)
    requires tenant.Valid() && session.base.tenantID == tenant.id
    modifies tenant
    ensures tenant.Valid()
    ensures tenant.view == Entered(old(tenant.view), session.base.id, session.selectedSource)
    ensures CatalogOf(catalog, old(tenant.view), session.selectedSource)
  {
    hide SourceRuntime.Proper, CatalogOf, ListsObjects;
    catalog := BuildCatalog(tenant, session.selectedSource);
    assert forall w :: w in tenant.watchers ==> tenant.ProperWatcher(w);
    tenant.watchers := tenant.watchers[session.base.id := session];
    tenant.view := Entered(tenant.view, session.base.id, session.selectedSource);
    WatchersChanged(tenant);
  }

  method LeaveWatch(tenant: TenantRuntime, id: SessionId)
    requires tenant.Valid()
    modifies tenant
    ensures tenant.Valid()
    ensures tenant.view == old(tenant.view).(watchers := old(tenant.view).watchers - {id})
  {
    hide SourceRuntime.Proper;
    assert forall w :: w in tenant.watchers ==> tenant.ProperWatcher(w);
    tenant.watchers := tenant.watchers - {id};
    tenant.view := tenant.view.(watchers := tenant.view.watchers - {id});
    WatchersChanged(tenant);
  }

  lemma EnteringIsRegisterWatch(st: State, t: string, id: SessionId, after: Tenant, catalog: Message)
    requires after == Entered(TenantOrNew(st, t), id, "")
    requires CatalogOf(catalog, TenantOrNew(st, t), "")
    ensures st[t := after] == Apply(st, RegisterWatchOp(t, id))
    ensures Emits(st, RegisterWatchOp(t, id), SILENT.(reply := Some(catalog)))
  {}

  /** What selecting a known source makes of the tenant: a selection is only visible for a registered session. */
  function Selected(before: Tenant, id: SessionId, name: string): Tenant {
    if id in before.watchers then before.(watchers := before.watchers[id := name]) else before
  }

  lemma SelectedSources(before: Tenant, id: SessionId, name: string)
    ensures Selected(before, id, name).sources == before.sources
  {}

  /** Result, catalog and snapshot, in this order. */
  ghost predicate Answers(notes: seq<Note>, tenant: Tenant, id: SessionId, name: string) {
    && name in tenant.sources
    && |notes| == 3
    && notes[0] == Note(id, SelectResult(true, name, ""))
    && notes[1].to == id && CatalogOf(notes[1].body, tenant, name)
    && notes[2] == Note(id, SnapshotOf(tenant.sources[name]))
  }

  lemma AnswerIsSelect(st: State, t: string, id: SessionId, name: string, after: Tenant, notes: seq<Note>)
    requires t in st && after.sources == st[t].sources && Answers(notes, after, id, name)
    ensures after == Selected(st[t], id, name) ==> st[t := after] == Apply(st, SelectSourceOp(t, id, name))
    ensures Emits(st, SelectSourceOp(t, id, name), SILENT.(notes := notes))
  {
    assert Descriptors(after) == Descriptors(st[t]);
    assert st[t := st[t]] == st;
  }

  lemma RefusalIsSelect(st: State, t: string, id: SessionId, name: string)
    requires !Known(st, t, name)
    ensures Apply(st, SelectSourceOp(t, id, name)) == st
    ensures Emits(st, SelectSourceOp(t, id, name),
                  SILENT.(notes := [Note(id, SelectResult(false, name, "source_not_found"))]))
  {}

  method RefuseSelection(session: WatchSession, name: string) returns (notes: seq<OutboundNotification>)
    ensures Addressed(notes, {session})
    ensures NotesOf(notes) == [Note(session.base.id, SelectResult(false, name, "source_not_found"))]
  {
    var envelope := new Envelope(SelectResult(false, name, "source_not_found"));
    notes := [OutboundNotification(session, envelope)];
  }

  /** Another session object is registered under the id of this one: what fresh session ids exclude. */
  ghost predicate Displaced(tenant: TenantRuntime, session: WatchSession)
    reads tenant
  {
    session.base.id in tenant.watchers && tenant.watchers[session.base.id] != session
  }

  /** The view of the tenant after the session's selection: only that of the registered object shows. */
  ghost function SelectedBy(tenant: TenantRuntime, session: WatchSession, name: string): Tenant
    reads tenant
  {
    if Displaced(tenant, session) then tenant.view else Selected(tenant.view, session.base.id, name)
  }

  method ChangeSelection(tenant: TenantRuntime, session: WatchSession, name: string)
    requires tenant.Valid()
    modifies tenant`view, session`selectedSource
    ensures tenant.Valid() && session.selectedSource == name
    ensures tenant.view == old(SelectedBy(tenant, session, name))
  {
    hide SourceRuntime.Proper;
    assert forall w :: w in tenant.watchers ==> tenant.ProperWatcher(w);
    session.selectedSource := name;
    tenant.view := SelectedBy(tenant, session, name);
    assert tenant.view.watchers.Keys == tenant.watchers.Keys;
    WatchersChanged(tenant);
  }

  method AnswerSelection(tenant: TenantRuntime, session: WatchSession, name: string)
    returns (notes: seq<OutboundNotification>)
    requires tenant.Valid() && name in tenant.sources
    ensures Addressed(notes, {session})
    ensures tenant.Valid() && Answers(NotesOf(notes), tenant.view, session.base.id, name)
  {
    assert tenant.ProperSource(name);
    var source := tenant.sources[name];
    var snapshot := Snapshot(source.name, source.activeIngest != null, source.lastStatus);
    assert snapshot == SnapshotOf(tenant.view.sources[name]);
    var catalog := BuildCatalog(tenant, name);
    hide TenantRuntime.Valid, SourceRuntime.Proper, CatalogOf;
    notes := Reply(session, SelectResult(true, name, ""), catalog, snapshot);
  }

  /** Three envelopes for one session. */
  method Reply(session: WatchSession, result: Message, catalog: Message, snapshot: Message)
    returns (notes: seq<OutboundNotification>)
    ensures Addressed(notes, {session})
    ensures var id := session.base.id; NotesOf(notes) == [Note(id, result), Note(id, catalog), Note(id, snapshot)]
  {
    var first := new Envelope(result);
    var second := new Envelope(catalog);
    var third := new Envelope(snapshot);
    notes := [OutboundNotification(session, first), OutboundNotification(session, second),
              OutboundNotification(session, third)];
  }

  method Select(tenant: TenantRuntime, session: WatchSession, name: string) returns (notes: seq<OutboundNotification>)
    requires tenant.Valid() && name in tenant.sources
    modifies tenant`view, session`selectedSource
    ensures tenant.Valid() && session.selectedSource == name
    ensures tenant.view == old(SelectedBy(tenant, session, name))
    ensures Addressed(notes, {session})
    ensures Answers(NotesOf(notes), tenant.view, session.base.id, name)
  {
    ChangeSelection(tenant, session, name);
    notes := AnswerSelection(tenant, session, name);
  }

  // ---------------------------------------------------------------- the server

  /**
   View() is the server's state as a value. A critical section concerns one tenant: it needs and keeps `Sound` for that
   tenant, changes no object of another one, and changes the whole view exactly as `Apply` says.
   */
  class Server {
    var tenants: map<string, TenantRuntime>

    constructor ()
      ensures Consistent() && View() == map[]
    {
      tenants := map[];
    }

    ghost predicate Valid()
      reads this
    {
      forall t :: t in tenants ==> tenants[t].id == t
    }

    ghost function View(): State
      reads this, tenants.Values
    {
      map t | t in tenants :: tenants[t].view
    }

    // The objects of one tenant.

    ghost function Tenants(t: string): set<TenantRuntime>
      reads this
    {
      if t in tenants then {tenants[t]} else {}
    }

    ghost function Owned(t: string): set<object>
      reads this, Tenants(t)
    {
      if t in tenants then tenants[t].Owned() else {}
    }

    /** The session object that feeds a source, if there is one. */
    ghost function Feeder(t: string, name: string): IngestSession?
      reads this, Tenants(t), Owned(t)
    {
      if t in tenants then FeederOf(tenants[t], name) else null
    }

    ghost function Watchers(t: string): set<WatchSession>
      reads this, Tenants(t)
    {
      if t in tenants then tenants[t].watchers.Values else {}
    }

    /** Every tenant's objects agree with the view. */
    ghost predicate Consistent()
      reads this, tenants.Values
      reads set t, n | t in tenants && n in tenants[t].sources :: tenants[t].sources[n]
      reads set t, n | t in tenants && n in tenants[t].sources :: tenants[t].sources[n].recentSeq
      reads set t, w | t in tenants && w in tenants[t].watchers :: tenants[t].watchers[w]
    {
      Valid() && forall t :: t in tenants ==> tenants[t].Valid()
    }

    /** A section that is sound for its own tenant and changes no object of another one keeps the server consistent. */
    twostate lemma OthersUntouched(t: string)
      requires old(Consistent()) && Valid() && (t in tenants ==> tenants[t].Valid())
      requires forall u :: u in tenants && u != t ==> u in old(tenants) && tenants[u] == old(tenants)[u]
      requires forall u :: u in old(tenants) && u != t ==> u in tenants
      requires forall r: TenantRuntime :: old(allocated(r)) && r.id != t ==> unchanged(r)
      requires forall s: SourceRuntime :: old(allocated(s)) && s.home != t ==> unchanged(s)
      requires forall w: SequenceWindow :: old(allocated(w)) && w.home.0 != t ==> unchanged(w)
      requires forall w: WatchSession :: old(allocated(w)) && w.base.tenantID != t ==>
                 w.selectedSource == old(w.selectedSource)
      ensures Consistent()
      ensures t in tenants ==> View() == old(View())[t := tenants[t].view]
    {
      hide TenantRuntime.Valid;
      forall u | u in tenants && u != t
        ensures tenants[u].Valid()
      {
        assert old(tenants[u].Valid());
        tenants[u].Untouched(t);
      }
    }

    method GetOrCreateTenant(tenantID: string) returns (tenant: TenantRuntime)
      requires Consistent()
      modifies this
      ensures Consistent() && tenantID in tenants && tenants[tenantID] == tenant
      ensures if tenantID in old(tenants) then tenant == old(tenants)[tenantID]
              else fresh(tenant) && tenant.sources == map[]
      ensures tenant.watchers.Values == old(Watchers(tenantID))
      ensures tenant.view == TenantOrNew(old(View()), tenantID)
      ensures View() == old(View())[tenantID := tenant.view]
    {
      hide TenantRuntime.Valid;
      if tenantID in tenants {
        tenant := tenants[tenantID];
      } else {
        tenant := new TenantRuntime(tenantID);
        tenants := tenants[tenantID := tenant];
        assert View() == old(View())[tenantID := tenant.view];
        tenant.Empty();
        OthersUntouched(tenantID);
      }
    }

    method CleanupTenant(tenantID: string)
      requires Consistent()
      modifies this
      ensures Consistent()
      ensures View() == Cleanup(old(View()), tenantID)
    {
      hide TenantRuntime.Valid;
      if tenantID !in tenants {
        return;
      }
      var deserted := Deserted(tenants[tenantID]);
      if deserted {
        tenants := tenants - {tenantID};
        assert View() == old(View()) - {tenantID};
        OthersUntouched(tenantID);
      }
    }

    /** registerIngest after the lookup of its tenant. */
    method Admit(tenant: TenantRuntime, session: IngestSession, now: int)
      returns (refused: bool, replaced: IngestSession?, notes: seq<OutboundNotification>)
      requires Consistent() && session.base.tenantID in tenants && tenants[session.base.tenantID] == tenant
      modifies tenant.Owned()
      ensures Consistent() && tenant.id == session.base.tenantID && View() == old(View())[tenant.id := tenant.view]
      ensures !refused ==> FedBy(tenant, session, now)
      ensures replaced == if refused then null else old(FeederOf(tenant, session.sourceName))
      ensures Addressed(notes, old(tenant.watchers.Values))
      ensures Admits(old(tenant.view), session.Info(), now, tenant.view, refused, InfoOf(replaced), NotesOf(notes))
    {
      hide TenantRuntime.Valid, TenantRuntime.Owned, Admits, Addressed, NotesOf, FedBy, FeederOf;
      tenant.Homes();
      refused, replaced, notes := AdmitIngest(tenant, session, now);
      OthersUntouched(tenant.id);
    }

    /** The locked part of registerIngest. `replaced` is the session the caller closes afterwards. */
    method RegisterIngest(session: IngestSession, now: int)
      returns (refused: bool, replaced: IngestSession?, notes: seq<OutboundNotification>)
      requires Consistent()
      modifies this, Owned(session.base.tenantID)
      ensures Consistent()
      ensures View() == Apply(old(View()), RegisterIngestOp(session.Info(), now))
      ensures !refused ==>
                session.base.tenantID in tenants && FedBy(tenants[session.base.tenantID], session, now)
      ensures replaced == if refused then null else old(Feeder(session.base.tenantID, session.sourceName))
      ensures Addressed(notes, old(Watchers(session.base.tenantID)))
      ensures Emits(old(View()), RegisterIngestOp(session.Info(), now), Output(
                      refused, InfoOf(replaced), Announced(old(View()), RegisterIngestOp(session.Info(), now)), None,
                      NotesOf(notes)))
    {
      hide TenantRuntime.Valid, Consistent, Admits, Emits, Apply, Announced, TenantOrNew;
      var tenant := GetOrCreateTenant(session.base.tenantID);
      ghost var found := tenant.view;
      refused, replaced, notes := Admit(tenant, session, now);
      Overwrite(old(View()), tenant.id, found, tenant.view);
      AdmissionIsRegistration(old(View()), session.Info(), now, tenant.view, refused, InfoOf(replaced), NotesOf(notes));
    }

    ghost predicate Mistakes(session: IngestSession)
      reads this, Owned(session.base.tenantID)
    {
      session.base.tenantID in tenants && Mistaken(tenants[session.base.tenantID], session)
    }

    /** unregisterIngest between the lookup of its tenant and the cleanup. */
    method Release(tenant: TenantRuntime, session: IngestSession, replaced: bool, now: int)
      returns (notes: seq<OutboundNotification>)
      requires Consistent() && session.base.tenantID in tenants && tenants[session.base.tenantID] == tenant
      modifies tenant.Owned()
      ensures Consistent() && tenant.id == session.base.tenantID && View() == old(View())[tenant.id := tenant.view]
      ensures Addressed(notes, old(tenant.watchers.Values))
      ensures old(Mistaken(tenant, session)) ==> tenant.view == old(tenant.view) && notes == []
      ensures !old(Mistaken(tenant, session)) ==>
                Releases(old(tenant.view), session.Info(), replaced, now, tenant.view, NotesOf(notes))
    {
      hide TenantRuntime.Valid, TenantRuntime.Owned, Releases, Addressed, NotesOf, Mistaken;
      tenant.Homes();
      notes := ReleaseIngest(tenant, session, replaced, now);
      OthersUntouched(tenant.id);
    }

    /** The locked part of unregisterIngest. */
    method UnregisterIngest(session: IngestSession, replaced: bool, now: int) returns (notes: seq<OutboundNotification>)
      requires Consistent()
      modifies this, Owned(session.base.tenantID)
      ensures Consistent()
      ensures Addressed(notes, old(Watchers(session.base.tenantID)))
      ensures old(Mistakes(session)) ==> View() == Cleanup(old(View()), session.base.tenantID) && notes == []
      ensures !old(Mistakes(session)) ==>
                var op := UnregisterIngestOp(session.Info(), replaced, now);
                && View() == Apply(old(View()), op)
                && Emits(old(View()), op, Output(false, None, Announced(old(View()), op), None, NotesOf(notes)))
    {
      hide TenantRuntime.Valid, Consistent, Releases, Emits, Apply, Announced, Mistaken;
      var tenantID := session.base.tenantID;
      if tenantID !in tenants {
        UnknownTenant(View(), session.Info(), replaced, now);
        return [];
      }
      var tenant := tenants[tenantID];
      notes := Release(tenant, session, replaced, now);
      if old(Mistakes(session)) {
        assert View() == old(View());
      } else {
        ReleaseIsUnregistration(old(View()), session.Info(), replaced, now, tenant.view, NotesOf(notes));
      }
      CleanupTenant(tenantID);
    }

    /** withIngestEvent after the lookup of its tenant. */
    method Take(tenant: TenantRuntime, session: IngestSession, number: uint64, live: Live, now: int)
      returns (notes: seq<OutboundNotification>)
      requires Consistent() && session.base.tenantID in tenants && tenants[session.base.tenantID] == tenant
      modifies tenant.Owned()
      ensures Consistent() && tenant.id == session.base.tenantID && View() == old(View())[tenant.id := tenant.view]
      ensures Addressed(notes, old(tenant.watchers.Values))
      ensures old(Mistaken(tenant, session)) ==> tenant.view == old(tenant.view) && notes == []
      ensures !old(Mistaken(tenant, session)) ==>
                Takes(old(tenant.view), session.Info(), number, live, now, tenant.view, NotesOf(notes))
    {
      hide TenantRuntime.Valid, TenantRuntime.Owned, Takes, Addressed, NotesOf, Mistaken;
      tenant.Homes();
      notes := TakeEvent(tenant, session, number, live, now);
      OthersUntouched(tenant.id);
    }

    /** withIngestEvent, with the closure of the frame's kind. */
    method WithIngestEvent(session: IngestSession, number: uint64, frame: Frame, now: int)
      returns (notes: seq<OutboundNotification>)
      requires Consistent()
      modifies Owned(session.base.tenantID)
      ensures Consistent()
      ensures Addressed(notes, old(Watchers(session.base.tenantID)))
      ensures old(Mistakes(session)) ==> View() == old(View()) && notes == []
      ensures !old(Mistakes(session)) ==>
                var op := IngestEventOp(session.Info(), number, frame, now);
                View() == Apply(old(View()), op) && Emits(old(View()), op, SILENT.(notes := NotesOf(notes)))
    {
      hide TenantRuntime.Valid, Consistent, Takes, Sanitize, Mistaken;
      var tenantID := session.base.tenantID;
      if tenantID !in tenants {
        return [];
      }
      var tenant := tenants[tenantID];
      notes := Take(tenant, session, number, Sanitize(session.sourceName, frame), now);
      if old(Mistakes(session)) {
        assert View() == old(View());
      } else {
        TakingIsIngestEvent(old(View()), session.Info(), number, frame, now, tenant.view, NotesOf(notes));
      }
    }

    /** registerWatch: the reply is the catalog of the tenant. A new session has not selected anything yet. */
    method RegisterWatch(session: WatchSession) returns (catalog: Message)
      requires Consistent()
      modifies this, Tenants(session.base.tenantID)
      ensures Consistent()
      ensures var t := session.base.tenantID;
              && View() == old(View())[t :=
                   Entered(TenantOrNew(old(View()), t), session.base.id, session.selectedSource)]
              && CatalogOf(catalog, TenantOrNew(old(View()), t), session.selectedSource)
      ensures session.selectedSource == "" ==>
                var op := RegisterWatchOp(session.base.tenantID, session.base.id);
                View() == Apply(old(View()), op) && Emits(old(View()), op, SILENT.(reply := Some(catalog)))
    {
      hide TenantRuntime.Valid, CatalogOf, Apply, Emits, TenantOrNew;
      var tenantID := session.base.tenantID;
      var tenant := GetOrCreateTenant(tenantID);
      ghost var found := tenant.view;
      label changing:
      catalog := EnterWatch(tenant, session);
      OthersUntouched@changing(tenantID);
      Overwrite(old(View()), tenantID, found, tenant.view);
      if session.selectedSource == "" {
        EnteringIsRegisterWatch(old(View()), tenantID, session.base.id, tenant.view, catalog);
      }
    }

    method UnregisterWatch(session: WatchSession)
      requires Consistent()
      modifies this, Tenants(session.base.tenantID)
      ensures Consistent()
      ensures View() == Apply(old(View()), UnregisterWatchOp(session.base.tenantID, session.base.id))
    {
      hide TenantRuntime.Valid;
      var tenantID := session.base.tenantID;
      if tenantID !in tenants {
        return;
      }
      LeaveWatch(tenants[tenantID], session.base.id);
      OthersUntouched(tenantID);
      CleanupTenant(tenantID);
    }

    /**
     selectSource. The answers go to the asking session object; the server's state changes if that is the registered
     one, or none is.
     */
    method SelectSource(session: WatchSession, name: string) returns (notes: seq<OutboundNotification>)
      requires Consistent()
      modifies Tenants(session.base.tenantID)`view, session`selectedSource
      ensures Consistent()
      ensures var t := session.base.tenantID;
              && session.selectedSource == (if Known(old(View()), t, name) then name else old(session.selectedSource))
              && View() == if old(t in tenants && Displaced(tenants[t], session)) then old(View())
                           else Apply(old(View()), SelectSourceOp(t, session.base.id, name))
      ensures Addressed(notes, {session})
      ensures Emits(old(View()), SelectSourceOp(session.base.tenantID, session.base.id, name),
                    SILENT.(notes := NotesOf(notes)))
    {
      hide TenantRuntime.Valid, Answers, Apply, Emits, Selected;
      var tenantID := session.base.tenantID;
      if tenantID !in tenants || name !in tenants[tenantID].sources {
        notes := RefuseSelection(session, name);
        RefusalIsSelect(old(View()), tenantID, session.base.id, name);
      } else {
        var tenant := tenants[tenantID];
        notes := Select(tenant, session, name);
        OthersUntouched(tenantID);
        SelectedSources(old(tenant.view), session.base.id, name);
        AnswerIsSelect(old(View()), tenantID, session.base.id, name, tenant.view, NotesOf(notes));
        assert old(View())[tenantID := old(tenant.view)] == old(View());
      }
    }
  }
}
