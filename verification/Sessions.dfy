/** Sessions as the program has them: shared envelopes, numbered writes, bounded queues and the dispatch loop. */
module Sessions {
  import opened Basics
  import opened Protocol
  import opened Worlds

  /** An envelope object. The same object may sit in the queues of many sessions. */
  class Envelope {
    const body: Message
    var number: uint64

    constructor (body: Message)
      ensures this.body == body && number == 0
    {
      this.body := body;
      number := 0;
    }

    /** `proto.Clone` */
    constructor Clone(original: Envelope)
      ensures body == original.body && number == original.number
    {
      body := original.body;
      number := original.number;
    }
  }

  datatype Written = Written(number: uint64, body: Message)

  /** What sessions of both roles share. `wire` is what was written on the connection; a failed write breaks it. */
  class SessionBase {
    const id: SessionId
    const tenantID: string
    const instanceID: string
    var closed: bool
    var counter: uint64
    var broken: bool
    var wire: seq<Written>

    constructor (id: SessionId, tenantID: string, instanceID: string)
      ensures this.id == id && this.tenantID == tenantID && this.instanceID == instanceID
      ensures !closed && wire == [] && Consecutive()
    {
      this.id, this.tenantID, this.instanceID := id, tenantID, instanceID;
      closed, counter, broken, wire := false, 0, false, [];
    }

    /** The frames on the wire are numbered 1, 2, 3, ... (modulo 2^64), without gap or repeat. */
    ghost predicate Consecutive()
      reads this
    {
      && (forall i :: 0 <= i < |wire| ==> wire[i].number == (i + 1) % TWO_64)
      && (!broken ==> counter == |wire| % TWO_64)
    }

    /** closeOnce */
    method Close()
      modifies this`closed
      ensures closed
    {
      if !closed {
        closed := true;
      }
    }

    /** A failed websocket write is permanent: `writes` says whether the network takes this one. */
    method WriteEnvelope(envelope: Envelope, writes: bool) returns (ok: bool)
      modifies this`wire, this`broken
      ensures ok == (writes && !old(broken)) && broken == !ok
      ensures wire == if ok then old(wire) + [Written(envelope.number, envelope.body)] else old(wire)
    {
      ok := writes && !broken;
      if ok {
        wire := wire + [Written(envelope.number, envelope.body)];
      } else {
        broken := true;
      }
    }

    /**
     Sends a numbered clone. Nothing but this session changes: the envelope object, possibly queued elsewhere, keeps
     its number.
     */
    method SendEnvelope(envelope: Envelope?, writes: bool) returns (ok: bool)
      modifies this`wire, this`broken, this`counter
      ensures ok == (!closed && envelope != null && writes && !old(broken))
      ensures ok ==>
                var number := if envelope.number == 0 then Increment(old(counter)) else envelope.number;
                wire == old(wire) + [Written(number, envelope.body)]
      ensures !ok ==> wire == old(wire)
      ensures !ok && !closed && envelope != null ==> broken
      ensures ok ==> !broken
      ensures old(Consecutive()) && (envelope == null || envelope.number == 0) ==> Consecutive()
    {
      if closed || envelope == null {
        return false;
      }
      var cloned := new Envelope.Clone(envelope);
      if cloned.number == 0 {
        counter := Increment(counter);
        cloned.number := counter;
      }
      ok := WriteEnvelope(cloned, writes);
    }
  }

  datatype EnqueueResult = Accepted | Inactive | Backpressured

  function Bodies(envelopes: seq<Envelope>): seq<Message> {
    seq(|envelopes|, i requires 0 <= i < |envelopes| => envelopes[i].body)
  }

  /** A watch session with its outbound channel. `offered`, `accepted` and `sent` are histories. */
  class WatchSession {
    const base: SessionBase
    var selectedSource: string
    var outbound: seq<Envelope>
    var outboundReady: bool
    ghost var writing: bool
    ghost var offered: seq<Attempt>
    ghost var accepted: seq<Message>
    ghost var sent: seq<Message>

    constructor (base: SessionBase)
      ensures this.base == base && selectedSource == "" && !outboundReady && outbound == [] && writing
      ensures offered == [] && accepted == sent == []
    {
      this.base := base;
      selectedSource, outbound, outboundReady := "", [], false;
      writing, offered, accepted, sent := true, [], [], [];
    }

    /** The delivery state of the session. Registration and greeting are not its business. */
    ghost function View(): Box
      reads this, base
    {
      Box(base.tenantID, outboundReady, false, base.closed, writing, Control(""), Bodies(outbound), None, [], offered,
          accepted, sent)
    }

    method EnqueueEnvelope(envelope: Envelope?) returns (result: EnqueueResult)
      modifies this`outbound, this`offered, this`accepted
      ensures envelope == null ==> result == Accepted && View() == old(View())
      ensures envelope != null && result != Backpressured ==> View() == Offer(old(View()), envelope.body)
      ensures envelope != null && result == Backpressured ==>
                View().(closed := true) == Offer(old(View()), envelope.body)
      ensures result == Inactive <==> envelope != null && (!outboundReady || base.closed)
    {
      if envelope == null {
        return Accepted;
      }
      if !outboundReady {
        return Inactive;
      }
      if base.closed {
        offered := offered + [Attempt(envelope.body, false)];
        return Inactive;
      }
      if |outbound| < QUEUE {
        outbound := outbound + [envelope];
        offered := offered + [Attempt(envelope.body, true)];
        accepted := accepted + [envelope.body];
        assert Bodies(outbound) == old(Bodies(outbound)) + [envelope.body];
        return Accepted;
      }
      offered := offered + [Attempt(envelope.body, false)];
      return Backpressured;
    }

    /**
     The writer goroutine, for as long as envelopes are queued; `network` says which of its writes succeed. What it
     writes is the front of the queue, in order, on consecutive numbers, up to the first write that fails. It gives up,
     and closes the session, exactly if it has something to write and cannot.
     */
    method RunWatchWriter(network: nat -> bool) returns (turns: nat)
      requires writing && base.Consecutive()
      requires forall i :: 0 <= i < |outbound| ==> outbound[i].number == 0
      modifies this`outbound, this`sent, this`writing
      modifies base`wire, base`broken, base`counter, base`closed
      ensures turns <= |old(outbound)| && outbound == old(outbound)[turns..]
      ensures !writing <==> old(outbound) != [] && (old(base.closed) || old(base.broken) ||
                              exists i :: 0 <= i < |old(outbound)| && !network(i))
      ensures base.closed == (old(base.closed) || !writing)
      ensures writing ==> outbound == []
      ensures old(base.wire) <= base.wire
      ensures old(base.closed) || old(base.broken) ==> base.wire == old(base.wire)
      ensures !old(base.closed) && !old(base.broken) ==>
                var written := |base.wire| - |old(base.wire)|;
                && 0 <= written <= |old(outbound)| && (forall i :: 0 <= i < written ==> network(i))
                && (written < |old(outbound)| ==> !network(written))
      ensures exists written :: 0 <= written <= turns
                && (writing ==> written == turns)
                && sent == old(sent) + Bodies(old(outbound)[..written])
                && |base.wire| == |old(base.wire)| + written
                && (forall i :: 0 <= i < written ==>
                      base.wire[|old(base.wire)| + i] ==
                      Written((|old(base.wire)| + i + 1) % TWO_64, old(outbound)[i].body))
      ensures base.Consecutive()
    {
      turns := 0;
      while outbound != []
        invariant turns <= |old(outbound)| && outbound == old(outbound)[turns..]
        invariant writing && base.Consecutive() && base.closed == old(base.closed)
        invariant base.broken == old(base.broken) && (base.closed || base.broken ==> turns == 0)
        invariant forall i :: 0 <= i < turns ==> network(i)
        invariant old(base.wire) <= base.wire
        invariant sent == old(sent) + Bodies(old(outbound)[..turns])
        invariant |base.wire| == |old(base.wire)| + turns
        invariant forall i :: 0 <= i < turns ==>
            base.wire[|old(base.wire)| + i] == Written((|old(base.wire)| + i + 1) % TWO_64, old(outbound)[i].body)
        decreases |outbound|
      {
        var envelope := outbound[0];
        outbound := outbound[1..];
        var ok := base.SendEnvelope(envelope, network(turns));
        turns := turns + 1;
        if !ok {
          base.Close();
          writing := false;
          return;
        }
        sent := sent + [envelope.body];
        assert old(outbound)[..turns] == old(outbound)[..turns - 1] + [envelope];
      }
    }
  }

  class IngestSession {
    const base: SessionBase
    const sourceName: string
    const sourceDisplayName: string

    constructor (base: SessionBase, sourceName: string, sourceDisplayName: string)
      ensures this.base == base && this.sourceName == sourceName
      ensures this.sourceDisplayName == if sourceDisplayName == "" then sourceName else sourceDisplayName
    {
      this.base, this.sourceName := base, sourceName;
      this.sourceDisplayName := if sourceDisplayName == "" then sourceName else sourceDisplayName;
    }

    function Info(): Ingest {
      Ingest(base.id, base.tenantID, sourceName, sourceDisplayName, base.instanceID)
    }
  }

  // ---------------------------------------------------------------- dispatch

  datatype OutboundNotification = OutboundNotification(session: WatchSession?, envelope: Envelope?)

  predicate Concerns(n: OutboundNotification, session: WatchSession) {
    n.session == session && n.envelope != null
  }

  /** What a notification list addresses to one session object. */
  function BodiesFor(notes: seq<OutboundNotification>, session: WatchSession): seq<Message> {
    if notes == [] then []
    else
      var before, last := BodiesFor(notes[..|notes| - 1], session), notes[|notes| - 1];
      if Concerns(last, session) then before + [last.envelope.body] else before
  }

  /** The i-th notification is one for this session. */
  predicate EntryFor(notes: seq<OutboundNotification>, session: WatchSession, i: nat) {
    i < |notes| && notes[i].session == session && notes[i].envelope != null
  }

  /** The places of its entries. */
  function PlacesFor(notes: seq<OutboundNotification>, session: WatchSession): (places: seq<nat>)
    ensures forall i :: i in places <==> EntryFor(notes, session, i)
    ensures forall i, j :: 0 <= i < j < |places| ==> places[i] < places[j]
  {
    if notes == [] then []
    else
      var n := |notes| - 1;
      var before := PlacesFor(notes[..n], session);
      assert forall i :: 0 <= i < |before| ==> before[i] in before;
      assert forall i: nat :: i < n ==> (EntryFor(notes, session, i) <==> EntryFor(notes[..n], session, i));
      if EntryFor(notes, session, n) then before + [n] else before
  }

  /** What the list addresses to the session: the bodies of exactly its entries, in list order. */
  lemma {:induction false} BodiesForAreEntries(notes: seq<OutboundNotification>, session: WatchSession)
    ensures var places, bodies := PlacesFor(notes, session), BodiesFor(notes, session);
            && |bodies| == |places|
            && (forall j :: 0 <= j < |places| ==>
                EntryFor(notes, session, places[j]) && bodies[j] == notes[places[j]].envelope.body)
  {
    forall j | 0 <= j < |PlacesFor(notes, session)|
      ensures EntryFor(notes, session, PlacesFor(notes, session)[j])
    {
      assert PlacesFor(notes, session)[j] in PlacesFor(notes, session);
    }
    if notes != [] {
      BodiesForAreEntries(notes[..|notes| - 1], session);
    }
  }

  ghost function SessionsOf(notes: seq<OutboundNotification>): set<WatchSession> {
    set i | 0 <= i < |notes| && notes[i].session != null :: notes[i].session
  }

  ghost function BasesOf(notes: seq<OutboundNotification>): set<SessionBase> {
    set i | 0 <= i < |notes| && notes[i].session != null :: notes[i].session.base
  }

  /** Different session objects have different connections. */
  ghost predicate Separate(notes: seq<OutboundNotification>) {
    forall a, b :: a in SessionsOf(notes) && b in SessionsOf(notes) && a.base == b.base ==> a == b
  }

  lemma {:induction false} OfferAllAppend(box: Box, bodies: seq<Message>, body: Message)
    ensures OfferAll(box, bodies + [body]) == Offer(OfferAll(box, bodies), body)
    decreases |bodies|
  {
    if bodies == [] {
      assert ([] + [body])[1..] == [];
    } else {
      assert (bodies + [body])[1..] == bodies[1..] + [body];
      OfferAllAppend(Offer(box, bodies[0]), bodies[1..], body);
    }
  }

  /** With room for all of them, all are queued, in order, and nothing else happens. */
  lemma {:induction false} OfferAllWithRoom(box: Box, bodies: seq<Message>)
    requires box.ready && !box.closed && |box.queue| + |bodies| <= 128
    ensures OfferAll(box, bodies).queue == box.queue + bodies && OfferAll(box, bodies).accepted == box.accepted + bodies
    ensures !OfferAll(box, bodies).closed
    decreases |bodies|
  {
    if bodies != [] {
      OfferAllWithRoom(Offer(box, bodies[0]), bodies[1..]);
      assert bodies == [bodies[0]] + bodies[1..];
    }
  }

  /**
   The dispatch loop isolates slow watchers: whatever mix of sessions the list names, each ends up exactly as if only
   its own messages had been offered to it.
   */
  method Dispatch(notes: seq<OutboundNotification>)
    requires Separate(notes)
    modifies SessionsOf(notes)`outbound, SessionsOf(notes)`offered, SessionsOf(notes)`accepted
    modifies BasesOf(notes)`closed
    ensures forall s :: s in SessionsOf(notes) ==> s.View() == OfferAll(old(s.View()), BodiesFor(notes, s))
    ensures forall s :: s in SessionsOf(notes) && old(s.outboundReady && !s.base.closed)
                        && |old(s.outbound)| + |BodiesFor(notes, s)| <= 128 ==>
              Bodies(s.outbound) == old(Bodies(s.outbound)) + BodiesFor(notes, s) && !s.base.closed
  {
    for i := 0 to |notes|
      invariant forall s :: s in SessionsOf(notes) ==> s.View() == OfferAll(old(s.View()), BodiesFor(notes[..i], s))
    {
      var n := notes[i];
      assert notes[..i + 1][..i] == notes[..i];
      if n.session != null && n.envelope != null {
        assert n.session in SessionsOf(notes) && n.session.base in BasesOf(notes);
        label before:
        var result := n.session.EnqueueEnvelope(n.envelope);
        if result == Backpressured {
          n.session.base.Close();
        }
        OfferAllAppend(old(n.session.View()), BodiesFor(notes[..i], n.session), n.envelope.body);
        assert forall s :: s in SessionsOf(notes) && s != n.session ==> s.View() == old@before(s.View());
      }
    }
    assert notes[..|notes|] == notes;
    forall s | s in SessionsOf(notes) && old(s.outboundReady && !s.base.closed)
               && |old(s.outbound)| + |BodiesFor(notes, s)| <= 128
      ensures Bodies(s.outbound) == old(Bodies(s.outbound)) + BodiesFor(notes, s) && !s.base.closed
    {
      OfferAllWithRoom(old(s.View()), BodiesFor(notes, s));
      assert s.View().queue == Bodies(s.outbound) && s.View().closed == s.base.closed;
    }
  }
}
