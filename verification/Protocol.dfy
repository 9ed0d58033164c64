/** What travels between sessions and server, after decoding. */
module Protocol {
  import opened Basics

  /** A random 128-bit id, never drawn twice. */
  type SessionId = string

  /** An authenticated ingest connection as it presents itself to registerIngest. */
  datatype Ingest = Ingest(id: SessionId, tenant: string, source: string, display: string, instance: string)

  datatype Kind = Activity | Decode | Status | QsoLogged

  /** A live event as the client wrote it; `claimed` is the source name the frame itself carries. */
  datatype Frame = Frame(kind: Kind, claimed: string, client: string, payload: string)

  /** A live event as watchers see it. */
  datatype Live = Live(kind: Kind, source: string, client: string, payload: string)

  /** The sanitize functions: the session's source name replaces the claimed one. Activity has no other fields. */
  function Sanitize(source: string, frame: Frame): Live {
    Live(frame.kind, source, frame.client, if frame.kind.Activity? then "" else frame.payload)
  }

  datatype Transition = Online | Replaced | Offline

  datatype Descriptor = Descriptor(name: string, display: string, online: bool, lastSeen: int)

  datatype Message =
    | Catalog(sources: seq<Descriptor>, current: string)
    | SourceState(source: string, transition: Transition)
    | SelectResult(ok: bool, source: string, code: string)
    | Snapshot(source: string, online: bool, lastStatus: Option<Live>)
    | Event(live: Live)
    | Control(text: string)  // pings, pongs, notices and authentication results, sent past the queue

  /** One `outboundNotification`: what to queue, and for which watch session. */
  datatype Note = Note(to: SessionId, body: Message)

  function Recipients(notes: seq<Note>): (ids: seq<SessionId>)
    ensures |ids| == |notes|
  {
    seq(|notes|, i requires 0 <= i < |notes| => notes[i].to)
  }

  /** What one session is sent out of a notification list, in order. */
  function MessagesFor(notes: seq<Note>, id: SessionId): seq<Message> {
    if notes == [] then []
    else (if notes[0].to == id then [notes[0].body] else []) + MessagesFor(notes[1..], id)
  }

  lemma {:induction false} MessagesForConcat(a: seq<Note>, b: seq<Note>, id: SessionId)
    ensures MessagesFor(a + b, id) == MessagesFor(a, id) + MessagesFor(b, id)
  {
    if a == [] {
      assert a + b == b;
    } else {
      assert (a + b)[1..] == a[1..] + b;
      MessagesForConcat(a[1..], b, id);
      var first, rest := if a[0].to == id then [a[0].body] else [], MessagesFor(a[1..], id);
      assert first + (rest + MessagesFor(b, id)) == (first + rest) + MessagesFor(b, id);
    }
  }

  lemma {:induction false} NothingForStrangers(notes: seq<Note>, id: SessionId)
    requires id !in Recipients(notes)
    ensures MessagesFor(notes, id) == []
  {
    if notes != [] {
      assert Recipients(notes)[0] == notes[0].to;
      assert Recipients(notes[1..]) == Recipients(notes)[1..];
      NothingForStrangers(notes[1..], id);
    }
  }

  /** A list that names every recipient once brings each of them exactly one message. */
  lemma {:induction false} OneMessageEach(notes: seq<Note>, i: nat)
    requires Distinct(Recipients(notes)) && i < |notes|
    ensures MessagesFor(notes, notes[i].to) == [notes[i].body]
  {
    var ids := Recipients(notes);
    assert Recipients(notes[1..]) == ids[1..];
    assert forall j :: 0 <= j < |ids| ==> ids[j] == notes[j].to;
    if i == 0 {
      assert forall j :: 0 <= j < |ids| - 1 ==> ids[1..][j] == ids[j + 1];
      NothingForStrangers(notes[1..], notes[0].to);
    } else {
      assert notes[0].to != notes[i].to;
      assert notes[1..][i - 1] == notes[i];
      OneMessageEach(notes[1..], i - 1);
    }
  }
}
