/**
 Properties of every sequence of critical sections, in any order and by any sessions: exact garbage collection of
 tenants, selections that never dangle, retirement of replaced sessions and the grammar of source announcements.
 */
module Runs {
  import opened Basics
  import opened SequenceWindows
  import opened Protocol
  import opened ServerModel

  // ---------------------------------------------------------------- garbage collection

  ghost predicate Collected(st: State) {
    forall t :: t in st ==> st[t].watchers != map[] || HasActiveIngest(st[t])
  }

  /** A `source_busy` refusal goes through the lookups that create tenants and sources, yet changes nothing. */
  lemma RefusalChangesNothing(st: State, s: Ingest, now: int)
    requires Refuses(st, s)
    ensures Apply(st, RegisterIngestOp(s, now)) == st
  {
    assert Known(st, s.tenant, s.source);
    var tenant := st[s.tenant];
    assert tenant.sources[s.source := tenant.sources[s.source]] == tenant.sources;
  }

  lemma StepCollects(st: State, op: Op)
    requires Collected(st)
    ensures Collected(Apply(st, op))
  {
    var after := Apply(st, op);
    var t := TenantOf(op);
    assert forall u :: u in after && u != t ==> u in st && after[u] == st[u];
    match op
    case RegisterIngestOp(s, now) =>
      if Refuses(st, s) {
        RefusalChangesNothing(st, s, now);
      } else {
        assert after[t].sources[s.source].active.Some?;
      }
    case IngestEventOp(s, _, _, _) =>
      if after != st {
        assert after[t].sources[s.source].active.Some?;
      }
    case RegisterWatchOp(_, id) =>
      assert id in after[t].watchers;
    case SelectSourceOp(_, id, _) =>
      if after != st {
        assert id in after[t].watchers;
      }
    case _ =>
  }

  /** The watch sessions registered and not yet unregistered in tenant t, read off the history alone. */
  function Watching(ops: seq<Op>, t: string): set<SessionId> {
    if ops == [] then {}
    else
      var before := Watching(ops[..|ops| - 1], t);
      match ops[|ops| - 1]
      case RegisterWatchOp(u, id) => if u == t then before + {id} else before
      case UnregisterWatchOp(u, id) => if u == t then before - {id} else before
      case _ => before
  }

  lemma {:induction false} WatchersAreHistory(ops: seq<Op>, t: string)
    ensures Collected(After(ops))
    ensures Watching(ops, t) == TenantOrNew(After(ops), t).watchers.Keys
  {
    if ops != [] {
      var before, op := ops[..|ops| - 1], ops[|ops| - 1];
      WatchersAreHistory(before, t);
      StepCollects(After(before), op);
      var st, after := After(before), After(ops);
      assert TenantOf(op) != t ==> TenantOrNew(after, t) == TenantOrNew(st, t);
      if op.SelectSourceOp? && after != st && op.tenantId == t {
        assert after[t].watchers.Keys == st[t].watchers.Keys;
      }
    }
  }

  // ---------------------------------------------------------------- announcements and ownership

  datatype Mark = Mark(transition: Transition, session: Ingest)

  /** The callers of unregisterIngest always pass `false` for `replaced`. */
  predicate AsCalled(op: Op) {
    op.UnregisterIngestOp? ==> !op.replaced
  }

  predicate Concerns(op: Op, t: string, name: string) {
    (op.RegisterIngestOp? || op.UnregisterIngestOp?) && op.session.tenant == t && op.session.source == name
  }

  function MarkOf(st: State, op: Op, t: string, name: string): seq<Mark> {
    if Concerns(op, t, name) && Announced(st, op).Some? then [Mark(Announced(st, op).value, op.session)] else []
  }

  /** Everything announced about one source, in lock order, across deletions and re-creations of its tenant. */
  function Trail(ops: seq<Op>, t: string, name: string): seq<Mark> {
    if ops == [] then []
    else Trail(ops[..|ops| - 1], t, name) + MarkOf(After(ops[..|ops| - 1]), ops[|ops| - 1], t, name)
  }

  /** The marks form a prefix of (ONLINE REPLACED* OFFLINE)*, and a segment never changes its instance. */
  ghost predicate Grammatical(trail: seq<Mark>) {
    forall i :: 0 <= i < |trail| ==> Follows(Previous(trail, i), trail[i])
  }

  function Previous(trail: seq<Mark>, i: nat): Option<Mark>
    requires i <= |trail|
  {
    if i == 0 then None else Some(trail[i - 1])
  }

  predicate Follows(previous: Option<Mark>, mark: Mark) {
    match mark.transition
    case Online => previous.None? || previous.value.transition == Offline
    case Replaced =>
      && previous.Some? && previous.value.transition != Offline
      && previous.value.session.instance == mark.session.instance
    case Offline => previous.Some? && previous.value.transition != Offline && previous.value.session == mark.session
  }

  function LastOwner(trail: seq<Mark>): Option<Ingest> {
    if trail == [] || trail[|trail| - 1].transition == Offline then None else Some(trail[|trail| - 1].session)
  }

  lemma CleanupKeepsOwners(st: State, id: string, t: string, name: string)
    ensures OwnerOf(Cleanup(st, id), t, name) == OwnerOf(st, t, name)
  {}

  lemma OwnerFollowsMarks(st: State, op: Op, t: string, name: string)
    requires AsCalled(op)
    ensures OwnerOf(Apply(st, op), t, name) ==
            var mark := MarkOf(st, op, t, name); if mark == [] then OwnerOf(st, t, name) else LastOwner(mark)
  {
    match op
    case UnregisterIngestOp(s, _, now) =>
      if Owns(st, s) {
        var source := st[s.tenant].sources[s.source].(active := None, lastSeen := now);
        CleanupKeepsOwners(WithSource(st, s.tenant, s.source, source), s.tenant, t, name);
      } else {
        CleanupKeepsOwners(st, s.tenant, t, name);
      }
    case UnregisterWatchOp(u, id) =>
      if u in st {
        CleanupKeepsOwners(st[u := st[u].(watchers := st[u].watchers - {id})], u, t, name);
      }
    case _ =>
  }

  lemma MarkExtendsTrail(st: State, op: Op, t: string, name: string, trail: seq<Mark>)
    requires AsCalled(op) && Grammatical(trail) && OwnerOf(st, t, name) == LastOwner(trail)
    ensures Grammatical(trail + MarkOf(st, op, t, name))
    ensures OwnerOf(Apply(st, op), t, name) == LastOwner(trail + MarkOf(st, op, t, name))
  {
    OwnerFollowsMarks(st, op, t, name);
    var mark := MarkOf(st, op, t, name);
    var longer := trail + mark;
    forall i | 0 <= i < |longer|
      ensures Follows(Previous(longer, i), longer[i])
    {
      assert i <= |trail| ==> Previous(longer, i) == Previous(trail, i);
      if i < |trail| {
        assert Follows(Previous(trail, i), trail[i]);
      } else {
        assert longer[i] == mark[0] && i == |trail|;
        assert LastOwner(trail).Some? ==>
          Previous(trail, i) == Some(trail[i - 1]) && trail[i - 1].transition != Offline;
      }
    }
    assert mark == [] ==> longer == trail;
  }

  /**
   Lifecycle grammar: for every run and source the announcements are grammatical, and the source is owned exactly
   when they end inside a segment, by the session announced last.
   */
  lemma {:induction false} LifecycleGrammar(ops: seq<Op>, t: string, name: string)
    requires forall op :: op in ops ==> AsCalled(op)
    ensures Grammatical(Trail(ops, t, name))
    ensures OwnerOf(After(ops), t, name) == LastOwner(Trail(ops, t, name))
  {
    if ops != [] {
      var before, op := ops[..|ops| - 1], ops[|ops| - 1];
      assert forall o :: o in before ==> o in ops;
      LifecycleGrammar(before, t, name);
      MarkExtendsTrail(After(before), op, t, name, Trail(before, t, name));
    }
  }

  lemma Continues(trail: seq<Mark>, i: nat)
    requires Grammatical(trail) && i + 1 < |trail| && trail[i].transition != Offline
    ensures trail[i + 1].session.instance == trail[i].session.instance
  {
    assert Follows(Previous(trail, i + 1), trail[i + 1]);
  }

  /** Ownership passes between different instances only through OFFLINE. */
  lemma {:induction false} OneInstancePerSegment(trail: seq<Mark>, i: nat, j: nat)
    requires Grammatical(trail) && i <= j < |trail|
    requires forall k :: i <= k < j ==> trail[k].transition != Offline
    ensures trail[i].session.instance == trail[j].session.instance
    decreases j
  {
    hide Grammatical;
    if i < j {
      Continues(trail, j - 1);
      OneInstancePerSegment(trail, i, j - 1);
    }
  }

  /**
   Exact garbage collection: at every release of the lock a tenant is in the map if and only if a watch session of it
   is registered or the last announcement about one of its sources is not OFFLINE.
   */
  lemma ExactGarbageCollection(ops: seq<Op>, t: string)
    requires forall op :: op in ops ==> AsCalled(op)
    ensures t in After(ops) <==> Watching(ops, t) != {} || (exists name :: LastOwner(Trail(ops, t, name)).Some?)
  {
    WatchersAreHistory(ops, t);
    forall name
      ensures OwnerOf(After(ops), t, name) == LastOwner(Trail(ops, t, name))
    {
      LifecycleGrammar(ops, t, name);
    }
    if t in After(ops) && HasActiveIngest(After(ops)[t]) {
      var name :| name in After(ops)[t].sources && After(ops)[t].sources[name].active.Some?;
      assert LastOwner(Trail(ops, t, name)).Some?;
    }
  }

  // ---------------------------------------------------------------- what a source says about its past

  /** When the source hears from a session: an announcement, or a frame that is accepted. */
  function Contact(st: State, op: Op, t: string, name: string): seq<int> {
    if MarkOf(st, op, t, name) != [] then [op.now]
    else if && op.IngestEventOp? && op.session.tenant == t && op.session.source == name
            && Accepts(st, op.session, op.number)
    then [op.now] else []
  }

  function Contacts(ops: seq<Op>, t: string, name: string): seq<int> {
    if ops == [] then []
    else Contacts(ops[..|ops| - 1], t, name) + Contact(After(ops[..|ops| - 1]), ops[|ops| - 1], t, name)
  }

  /** One critical section, seen from one source. */
  lemma SourceMoves(st: State, op: Op, t: string, name: string)
    requires AsCalled(op) && Known(Apply(st, op), t, name)
    ensures var source := Apply(st, op)[t].sources[name];
            var mark, contact := MarkOf(st, op, t, name), Contact(st, op, t, name);
            && (mark == [] ==> Known(st, t, name) && source.display == st[t].sources[name].display)
            && (mark != [] && mark[0].transition != Offline ==> source.display == mark[0].session.display)
            && (mark != [] && mark[0].transition == Offline ==>
                && OwnerOf(st, t, name) == Some(mark[0].session)
                && source.display == st[t].sources[name].display)
            && (contact == [] ==> Known(st, t, name) && source.lastSeen == st[t].sources[name].lastSeen)
            && (contact != [] ==> source.lastSeen == contact[0])
  {
    if op.RegisterIngestOp? && Refuses(st, op.session) {
      RefusalChangesNothing(st, op.session, op.now);
    }
  }

  /** The source is as the announcements and contacts so far say. */
  ghost predicate GoesBackTo(source: Source, trail: seq<Mark>, contacts: seq<int>) {
    && trail != [] && contacts != []
    && source.display == trail[|trail| - 1].session.display
    && (source.active.Some? <==> trail[|trail| - 1].transition != Offline)
    && source.lastSeen == contacts[|contacts| - 1]
  }

  lemma SourceStep(st: State, op: Op, t: string, name: string, trail: seq<Mark>, contacts: seq<int>)
    requires AsCalled(op) && Known(Apply(st, op), t, name)
    requires OwnerOf(st, t, name) == LastOwner(trail)
    requires OwnerOf(Apply(st, op), t, name) == LastOwner(trail + MarkOf(st, op, t, name))
    requires Known(st, t, name) ==> GoesBackTo(st[t].sources[name], trail, contacts)
    ensures GoesBackTo(Apply(st, op)[t].sources[name], trail + MarkOf(st, op, t, name),
                       contacts + Contact(st, op, t, name))
  {
    SourceMoves(st, op, t, name);
    var mark, contact := MarkOf(st, op, t, name), Contact(st, op, t, name);
    assert |mark| <= 1 && |contact| <= 1 && (mark != [] ==> contact != []);
    assert mark == [] ==> trail + mark == trail;
    assert contact == [] ==> contacts + contact == contacts;
    hide Apply, MarkOf, Contact;
  }

  /**
   What every catalog entry goes back to: a source that exists carries the display name of the session admitted last, is
   fed exactly if its last announcement was not OFFLINE, and was last seen at its last contact.
   */
  lemma SourcesAreHistory(ops: seq<Op>, t: string, name: string)
    requires forall op :: op in ops ==> AsCalled(op)
    requires Known(After(ops), t, name)
    ensures var source, trail, contacts := After(ops)[t].sources[name], Trail(ops, t, name), Contacts(ops, t, name);
            && trail != [] && contacts != []
            && source.display == trail[|trail| - 1].session.display
            && (source.active.Some? <==> trail[|trail| - 1].transition != Offline)
            && source.lastSeen == contacts[|contacts| - 1]
  {
    SourcesGoBack(ops, t, name);
  }

  lemma OneMore(ops: seq<Op>, t: string, name: string)
    requires ops != []
    ensures var before, op := ops[..|ops| - 1], ops[|ops| - 1];
            && After(ops) == Apply(After(before), op)
            && Trail(ops, t, name) == Trail(before, t, name) + MarkOf(After(before), op, t, name)
            && Contacts(ops, t, name) == Contacts(before, t, name) + Contact(After(before), op, t, name)
  {}

  lemma {:induction false} SourcesGoBack(ops: seq<Op>, t: string, name: string)
    requires forall op :: op in ops ==> AsCalled(op)
    requires Known(After(ops), t, name)
    ensures GoesBackTo(After(ops)[t].sources[name], Trail(ops, t, name), Contacts(ops, t, name))
  {
    assert ops != [];
    var before, op := ops[..|ops| - 1], ops[|ops| - 1];
    assert forall o :: o in before ==> o in ops;
    OneMore(ops, t, name);
    hide *;
    LifecycleGrammar(before, t, name);
    LifecycleGrammar(ops, t, name);
    if Known(After(before), t, name) {
      SourcesGoBack(before, t, name);
    }
    SourceStep(After(before), op, t, name, Trail(before, t, name), Contacts(before, t, name));
  }

  /** Which frames the owner's window lets through. A frame without a number always passes, and leaves no trace. */
  lemma AcceptanceRule(st: State, s: Ingest, number: uint64, frame: Frame, now: int)
    ensures Accepts(st, s, number) <==>
            && Owns(st, s)
            && (number == 0 || Key(s.instance, number) !in LastN(st[s.tenant].sources[s.source].accepted, 1024))
    ensures Accepts(st, s, number) ==>
              var before, after := st[s.tenant].sources[s.source],
                                   Apply(st, IngestEventOp(s, number, frame, now))[s.tenant].sources[s.source];
              && after.lastSeen == now && after.display == before.display && after.active == before.active
              && after.accepted == before.accepted + (if number == 0 then [] else [Key(s.instance, number)])
              && after.lastStatus ==
                 (if frame.kind.Status? then Some(Live(Status, s.source, frame.client, frame.payload))
                  else before.lastStatus)
  {}

  // ---------------------------------------------------------------- retired sessions

  /** Session ids are fresh: no ingest session registers twice. */
  ghost predicate RegistersOnce(ops: seq<Op>) {
    forall i, j :: 0 <= i < j < |ops| && ops[i].RegisterIngestOp? && ops[j].RegisterIngestOp? ==>
      ops[i].session != ops[j].session
  }

  /** Only its own registration makes a session the active one. */
  lemma OwnershipIsRegistered(st: State, op: Op, s: Ingest)
    requires !Owns(st, s) && Owns(Apply(st, op), s)
    ensures op.RegisterIngestOp? && op.session == s && !Refuses(st, s)
  {}

  lemma {:induction false} NeverOwnsAgain(ops: seq<Op>, i: nat, j: nat, s: Ingest)
    requires RegistersOnce(ops) && i < j <= |ops|
    requires ops[i].RegisterIngestOp? && ops[i].session == s
    requires !Owns(After(ops[..j]), s)
    ensures !Owns(After(ops), s)
  {
    if j < |ops| {
      var before := ops[..|ops| - 1];
      assert before[..j] == ops[..j];
      NeverOwnsAgain(before, i, j, s);
      if Owns(After(ops), s) {
        OwnershipIsRegistered(After(before), ops[|ops| - 1], s);
      }
    } else {
      assert ops[..j] == ops;
    }
  }

  lemma StrangersAreSilent(st: State, late: Op, out: Output)
    requires Collected(st) && (late.IngestEventOp? || late.UnregisterIngestOp?) && !Owns(st, late.session)
    requires Emits(st, late, out)
    ensures Apply(st, late) == st && out == SILENT
  {}

  /**
   Retired sessions stay retired: once a registered session is not the active one, for the rest of every run it never
   becomes active again, its frames change nothing and notify nobody, and its late unregistration is without effect.
   */
  lemma RetiredStaysRetired(ops: seq<Op>, i: nat, j: nat, late: Op, out: Output)
    requires RegistersOnce(ops) && i < j <= |ops|
    requires late.IngestEventOp? || late.UnregisterIngestOp?
    requires ops[i].RegisterIngestOp? && ops[i].session == late.session
    requires !Owns(After(ops[..j]), late.session)
    requires Emits(After(ops), late, out)
    ensures !Owns(After(ops), late.session)
    ensures Apply(After(ops), late) == After(ops)
    ensures out == SILENT
  {
    NeverOwnsAgain(ops, i, j, late.session);
    WatchersAreHistory(ops, late.session.tenant);
    hide *;
    StrangersAreSilent(After(ops), late, out);
  }

  /** Being replaced retires a session at once: the evicted session is named, and owns nothing afterwards. */
  lemma ReplacementRetires(st: State, s: Ingest, now: int, out: Output, prior: Ingest)
    requires Owns(st, prior) && prior != s && s.tenant == prior.tenant && s.source == prior.source
    requires Emits(st, RegisterIngestOp(s, now), out)
    ensures s.instance == prior.instance <==> !out.refused
    ensures !out.refused ==>
              && out.evicted == Some(prior) && out.announced == Some(Replaced)
              && Owns(RegisterIngest(st, s, now), s) && !Owns(RegisterIngest(st, s, now), prior)
    ensures out.refused ==> RegisterIngest(st, s, now) == st
  {
    if out.refused {
      RefusalChangesNothing(st, s, now);
    }
  }

  // ---------------------------------------------------------------- selections

  /** Sources are filed under their own name, active sessions under their own source, and selections exist. */
  ghost predicate Filed(t: string, tenant: Tenant) {
    && (forall n :: n in tenant.sources ==>
        && tenant.sources[n].name == n && n != ""
        && (tenant.sources[n].active.Some? ==>
            tenant.sources[n].active.value.tenant == t && tenant.sources[n].active.value.source == n))
    && (forall id :: id in tenant.watchers ==> tenant.watchers[id] == "" || tenant.watchers[id] in tenant.sources)
  }

  ghost predicate WellFiled(st: State) {
    forall t :: t in st ==> Filed(t, st[t])
  }

  /** The handshake refuses an ingest session without a source name. */
  predicate Named(op: Op) {
    op.RegisterIngestOp? ==> op.session.source != ""
  }

  lemma StepFiles(st: State, op: Op)
    requires WellFiled(st) && Named(op)
    ensures WellFiled(Apply(st, op))
  {
    var after, t := Apply(st, op), TenantOf(op);
    assert forall u :: u in after && u != t ==> u in st && after[u] == st[u];
    assert Filed(t, TenantOrNew(st, t));
    assert t in after ==> Filed(t, after[t]);
  }

  /** While a tenant lives its sources only grow and keep their histories. */
  lemma SourcesOnlyGrow(st: State, op: Op, t: string)
    requires t in st && t in Apply(st, op)
    ensures st[t].sources.Keys <= Apply(st, op)[t].sources.Keys
    ensures forall n :: n in st[t].sources ==> st[t].sources[n].accepted <= Apply(st, op)[t].sources[n].accepted
  {
    var after := Apply(st, op);
    if TenantOf(op) != t {
      assert after[t] == st[t];
    }
  }

  lemma {:induction false} SelectionsNeverDangle(ops: seq<Op>)
    requires forall op :: op in ops ==> Named(op)
    ensures WellFiled(After(ops))
  {
    if ops != [] {
      var before := ops[..|ops| - 1];
      assert forall o :: o in before ==> o in ops;
      SelectionsNeverDangle(before);
      StepFiles(After(before), ops[|ops| - 1]);
    }
  }
}
