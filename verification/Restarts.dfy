/** What the duplicate window does to a client process that is restarted under the same instance id. */
module Restarts {
  import opened Basics
  import opened SequenceWindows
  import opened Protocol
  import opened ServerModel
  import opened EndToEnd

  function ClientOf(s: Ingest): Client {
    Client(s.tenant, s.source, s.instance)
  }

  /** The server after any critical sections of any sessions. */
  function Later(st: State, ops: seq<Op>): State {
    if ops == [] then st else Apply(Later(st, ops[..|ops| - 1]), ops[|ops| - 1])
  }

  /** The numbers of the frames of s among them. Number 0 does not concern the window. */
  function Numbers(ops: seq<Op>, s: Ingest): seq<uint64> {
    if ops == [] then []
    else
      var before, last := Numbers(ops[..|ops| - 1], s), ops[|ops| - 1];
      if last.IngestEventOp? && last.session == s && last.number != 0 then before + [last.number] else before
  }

  /** A process numbers its events in rising order. Some may be lost on the way. */
  predicate Rising(numbers: seq<uint64>) {
    && (forall i :: 0 <= i < |numbers| ==> numbers[i] > 0)
    && (forall i, j :: 0 <= i < j < |numbers| ==> numbers[i] < numbers[j])
  }

  // ---------------------------------------------------------------- the window, read off the old history

  /**
   Whether event m is dropped by a window with this history once the events in `before` have arrived: it was accepted
   earlier, and from then on, itself included, no more than a window full of keys.
   */
  predicate Dropped(history: seq<Key>, instance: string, before: seq<uint64>, m: uint64)
    decreases |before|, 1
  {
    exists p :: 0 <= p < |history| && history[p] == Key(instance, m)
                && |history| - p + |Kept(history, instance, before)| <= WINDOW
  }

  /** The keys of the arrived events that are not dropped. */
  function Kept(history: seq<Key>, instance: string, arrived: seq<uint64>): seq<Key>
    decreases |arrived|, 0
  {
    if arrived == [] then []
    else
      var before, m := arrived[..|arrived| - 1], arrived[|arrived| - 1];
      Kept(history, instance, before) + (if Dropped(history, instance, before, m) then [] else [Key(instance, m)])
  }

  lemma {:induction false} KeptAreArrived(history: seq<Key>, instance: string, arrived: seq<uint64>)
    ensures forall k :: k in Kept(history, instance, arrived) ==> k.number in arrived && k.instance == instance
  {
    if arrived != [] {
      KeptAreArrived(history, instance, arrived[..|arrived| - 1]);
    }
  }

  lemma RisingPrefix(numbers: seq<uint64>)
    requires Rising(numbers) && numbers != []
    ensures Rising(numbers[..|numbers| - 1]) && numbers[|numbers| - 1] !in numbers[..|numbers| - 1]
  {}

  /** The arithmetic is the window's: m is a duplicate exactly if it is dropped. */
  lemma DuplicateIsDropped(history: seq<Key>, instance: string, before: seq<uint64>, m: uint64)
    requires m !in before
    ensures Duplicate(history + Kept(history, instance, before), WINDOW, Key(instance, m))
            <==> Dropped(history, instance, before, m)
  {
    var kept := Kept(history, instance, before);
    var all := history + kept;
    KeptAreArrived(history, instance, before);
    InWindow(all, WINDOW, Key(instance, m));
    hide Duplicate, Kept;
    assert forall i :: 0 <= i < |history| ==> all[i] == history[i];
    assert forall i :: |history| <= i < |all| ==> all[i] == kept[i - |history|] && all[i] in kept;
  }

  // ---------------------------------------------------------------- the server

  /** A frame of the owner is offered to the window; nothing else that leaves s the owner touches the history. */
  lemma OwnFrame(st: State, s: Ingest, m: uint64, frame: Frame, now: int)
    requires Owns(st, s) && m > 0
    ensures var after := Apply(st, IngestEventOp(s, m, frame, now));
            && Owns(after, s)
            && History(after, ClientOf(s)) == Record(History(st, ClientOf(s)), WINDOW, Key(s.instance, m))
  {}

  lemma OtherSection(st: State, op: Op, s: Ingest)
    requires Owns(st, s) && Owns(Apply(st, op), s)
    requires !(op.IngestEventOp? && op.session == s && op.number != 0)
    ensures History(Apply(st, op), ClientOf(s)) == History(st, ClientOf(s))
  {
    if TenantOf(op) != s.tenant {
      assert TenantOrNew(Apply(st, op), s.tenant) == TenantOrNew(st, s.tenant);
    }
  }

  ghost predicate OwnsThroughout(st: State, ops: seq<Op>, s: Ingest) {
    forall i :: 0 <= i <= |ops| ==> Owns(Later(st, ops[..i]), s)
  }

  lemma OwnsPrefix(st: State, ops: seq<Op>, s: Ingest)
    requires OwnsThroughout(st, ops, s) && ops != []
    ensures OwnsThroughout(st, ops[..|ops| - 1], s) && Owns(Later(st, ops), s) && Owns(Later(st, ops[..|ops| - 1]), s)
  {
    var before := ops[..|ops| - 1];
    assert forall i :: 0 <= i <= |before| ==> before[..i] == ops[..i];
    assert ops[..|ops|] == ops && ops[..|before|] == before;
  }

  /** What the window knows after one more frame of the owner. */
  lemma RecordKeeps(history: seq<Key>, instance: string, before: seq<uint64>, m: uint64)
    requires Rising(before + [m])
    ensures Record(history + Kept(history, instance, before), WINDOW, Key(instance, m))
            == history + Kept(history, instance, before + [m])
  {
    var numbers := before + [m];
    RisingPrefix(numbers);
    assert numbers[..|before|] == before && numbers[|before|] == m;
    DuplicateIsDropped(history, instance, before, m);
    hide Duplicate, Dropped, Rising;
  }

  /** What the window of an owner knows, after anything that happens while it is the owner. */
  lemma {:induction false} OwnerHistory(st: State, ops: seq<Op>, s: Ingest)
    requires OwnsThroughout(st, ops, s) && Rising(Numbers(ops, s))
    ensures var history := History(st, ClientOf(s));
            History(Later(st, ops), ClientOf(s)) == history + Kept(history, s.instance, Numbers(ops, s))
  {
    if ops != [] {
      var before, last := ops[..|ops| - 1], ops[|ops| - 1];
      var history := History(st, ClientOf(s));
      OwnsPrefix(st, ops, s);
      if last.IngestEventOp? && last.session == s && last.number != 0 {
        assert Numbers(ops, s) == Numbers(before, s) + [last.number];
        RisingPrefix(Numbers(ops, s));
        assert Numbers(ops, s)[..|Numbers(before, s)|] == Numbers(before, s);
        hide Owns, History, Apply, Record, Kept, Rising, OwnsThroughout;
        OwnerHistory(st, before, s);
        OwnFrame(Later(st, before), s, last.number, last.frame, last.now);
        RecordKeeps(history, s.instance, Numbers(before, s), last.number);
      } else {
        hide Owns, History, Apply, Kept, Rising, OwnsThroughout;
        OwnerHistory(st, before, s);
        OtherSection(Later(st, before), last, s);
      }
    }
  }

  lemma NewIsAccepted(st: State, s: Ingest, m: uint64)
    requires Owns(st, s) && m > 0
    ensures Accepts(st, s, m) <==> !Duplicate(History(st, ClientOf(s)), WINDOW, Key(s.instance, m))
  {}

  lemma TakesOver(st: State, late: Ingest, now: int)
    requires !Refuses(st, late)
    ensures Owns(RegisterIngest(st, late, now), late)
    ensures History(RegisterIngest(st, late, now), ClientOf(late)) == History(st, ClientOf(late))
  {}

  /**
   What a restart costs, exactly. In any state of the server a process registers under an instance id used before, and
   numbers its events from 1 again. Whatever the other sessions do, and whichever of its events have arrived before, its
   event m is taken for a duplicate exactly if it is `Dropped` by the history the source had at the restart.
   */
  lemma RestartDropsExactly(st: State, late: Ingest, now: int, ops: seq<Op>, m: uint64)
    requires !Refuses(st, late) && OwnsThroughout(RegisterIngest(st, late, now), ops, late)
    requires m > 0 && Rising(Numbers(ops, late) + [m])
    ensures Accepts(Later(RegisterIngest(st, late, now), ops), late, m)
            <==> !Dropped(History(st, ClientOf(late)), late.instance, Numbers(ops, late), m)
  {
    var restarted := RegisterIngest(st, late, now);
    var numbers := Numbers(ops, late) + [m];
    RisingPrefix(numbers);
    assert numbers[..|numbers| - 1] == Numbers(ops, late);
    TakesOver(st, late, now);
    OwnerHistory(restarted, ops, late);
    assert ops[..|ops|] == ops;
    DuplicateIsDropped(History(st, ClientOf(late)), late.instance, Numbers(ops, late), m);
    NewIsAccepted(Later(restarted, ops), late, m);
  }

  // ---------------------------------------------------------------- histories that fit into the window

  /** Distinct keys of one instance, with numbers no larger than the window. */
  predicate Fits(history: seq<Key>, instance: string) {
    && (forall i :: 0 <= i < |history| ==> history[i].instance == instance && 1 <= history[i].number <= WINDOW)
    && (forall i, j :: 0 <= i < j < |history| ==> history[i] != history[j])
  }

  function UpTo(n: nat): (s: set<int>)
    ensures forall x: int :: x in s <==> 1 <= x <= n
  {
    if n == 0 then {} else UpTo(n - 1) + {n}
  }

  lemma {:induction false} SizeUpTo(n: nat)
    ensures |UpTo(n)| == n
  {
    if n > 0 {
      SizeUpTo(n - 1);
      var smaller := UpTo(n - 1);
      assert n !in smaller && |smaller + {n}| == |smaller| + 1;
    }
  }

  lemma SubsetSize(a: set<int>, b: set<int>)
    requires a <= b
    ensures |a| <= |b|
  {
    assert b == a + (b - a);
  }

  function NumbersIn(keys: seq<Key>): set<int> {
    set k | k in keys :: k.number
  }

  lemma {:induction false} SizeOfNumbers(history: seq<Key>, instance: string)
    requires Fits(history, instance)
    ensures |NumbersIn(history)| == |history|
  {
    if history != [] {
      var before, last := history[..|history| - 1], history[|history| - 1];
      SizeOfNumbers(before, instance);
      assert history == before + [last];
      forall k | k in before
        ensures k.number != last.number
      {
        var i :| 0 <= i < |before| && before[i] == k;
        assert history[i] == k;
      }
      AddNumber(before, last);
    }
  }

  lemma AddNumber(keys: seq<Key>, key: Key)
    ensures NumbersIn(keys + [key]) == NumbersIn(keys) + {key.number}
  {
    assert forall k :: k in keys + [key] <==> k in keys || k == key;
  }

  /** What is not dropped is new. */
  lemma KeptIsNew(history: seq<Key>, instance: string, before: seq<uint64>, m: uint64)
    requires Fits(history, instance) && |history| + |Kept(history, instance, before)| <= WINDOW
    requires m !in before && !Dropped(history, instance, before, m)
    ensures m !in NumbersIn(history) && m !in NumbersIn(Kept(history, instance, before))
  {
    KeptAreArrived(history, instance, before);
    forall k | k in history
      ensures k.number != m
    {
      var p :| 0 <= p < |history| && history[p] == k;
    }
  }

  lemma KeptGrows(history: seq<Key>, instance: string, arrived: seq<uint64>)
    requires arrived != []
    ensures var before, m := arrived[..|arrived| - 1], arrived[|arrived| - 1];
            Kept(history, instance, arrived) ==
              if Dropped(history, instance, before, m) then Kept(history, instance, before)
              else Kept(history, instance, before) + [Key(instance, m)]
  {}

  ghost predicate FitTogether(history: seq<Key>, kept: seq<Key>, max: nat) {
    var all := NumbersIn(history) + NumbersIn(kept);
    all <= UpTo(max) && |all| == |history| + |kept|
  }

  lemma RoomForBoth(history: seq<Key>, kept: seq<Key>, max: nat)
    requires FitTogether(history, kept, max)
    ensures |history| + |kept| <= max
  {
    SizeUpTo(max);
    SubsetSize(NumbersIn(history) + NumbersIn(kept), UpTo(max));
  }

  lemma OldFits(history: seq<Key>, instance: string, max: nat)
    requires Fits(history, instance) && max == WINDOW
    ensures FitTogether(history, [], max)
  {
    SizeOfNumbers(history, instance);
    assert NumbersIn(history) + NumbersIn([]) == NumbersIn(history);
    forall x | x in NumbersIn(history)
      ensures x in UpTo(max)
    {
      var k :| k in history && k.number == x;
      var p :| 0 <= p < |history| && history[p] == k;
    }
  }

  lemma OneMoreFits(history: seq<Key>, kept: seq<Key>, key: Key, max: nat)
    requires FitTogether(history, kept, max) && 1 <= key.number <= max
    requires key.number !in NumbersIn(history) && key.number !in NumbersIn(kept)
    ensures FitTogether(history, kept + [key], max)
  {
    AddNumber(kept, key);
    var all := NumbersIn(history) + NumbersIn(kept);
    hide NumbersIn, UpTo;
    assert NumbersIn(history) + (NumbersIn(kept) + {key.number}) == all + {key.number};
  }

  /** As long as numbers stay within the window, old and new keys have room in it together. */
  lemma {:induction false} AllFit(history: seq<Key>, instance: string, arrived: seq<uint64>, max: nat)
    requires Fits(history, instance) && max == WINDOW
    requires Rising(arrived) && (forall i :: 0 <= i < |arrived| ==> arrived[i] <= max)
    ensures FitTogether(history, Kept(history, instance, arrived), max)
    ensures |history| + |Kept(history, instance, arrived)| <= max
  {
    if arrived == [] {
      OldFits(history, instance, max);
    } else {
      var before, m := arrived[..|arrived| - 1], arrived[|arrived| - 1];
      AllFit(history, instance, before, max);
      RisingPrefix(arrived);
      KeptGrows(history, instance, arrived);
      hide FitTogether, Fits, Dropped, Kept;
      if !Dropped(history, instance, before, m) {
        KeptIsNew(history, instance, before, m);
        OneMoreFits(history, Kept(history, instance, before), Key(instance, m), max);
      }
    }
    RoomForBoth(history, Kept(history, instance, arrived), max);
  }

  /** Then exactly the events accepted before are dropped. */
  lemma SmallHistoryDrops(history: seq<Key>, instance: string, before: seq<uint64>, m: uint64)
    requires Fits(history, instance) && m > 0 && Rising(before + [m])
    ensures Dropped(history, instance, before, m) <==> Key(instance, m) in history
  {
    var numbers := before + [m];
    RisingPrefix(numbers);
    assert numbers[..|before|] == before && numbers[|before|] == m;
    if Key(instance, m) in history {
      var p :| 0 <= p < |history| && history[p] == Key(instance, m);
      assert forall i :: 0 <= i < |before| ==> numbers[i] == before[i];
      AllFit(history, instance, before, WINDOW);
    }
  }

  /** After a life with no number above the window: every number accepted then is dropped, and no other. */
  lemma ShortLifeDropsExactly(st: State, late: Ingest, now: int, ops: seq<Op>, m: uint64)
    requires !Refuses(st, late) && OwnsThroughout(RegisterIngest(st, late, now), ops, late)
    requires m > 0 && Rising(Numbers(ops, late) + [m])
    requires Fits(History(st, ClientOf(late)), late.instance)
    ensures Accepts(Later(RegisterIngest(st, late, now), ops), late, m)
            <==> Key(late.instance, m) !in History(st, ClientOf(late))
  {
    hide *;
    RestartDropsExactly(st, late, now, ops, m);
    SmallHistoryDrops(History(st, ClientOf(late)), late.instance, Numbers(ops, late), m);
  }

  // ---------------------------------------------------------------- lives without loss

  /** Event n is frame(n), and the server handles it at time clock(n). */
  function EventsTo(s: Ingest, frame: nat -> Frame, clock: nat -> int, n: nat): (ops: seq<Op>)
    requires n < TWO_64
    ensures |ops| == n
  {
    seq(n, i requires 0 <= i < n => IngestEventOp(s, i + 1, frame(i + 1), clock(i + 1)))
  }

  function Sending(st: State, s: Ingest, frame: nat -> Frame, clock: nat -> int, n: nat): State
    requires n < TWO_64
  {
    Later(st, EventsTo(s, frame, clock, n))
  }

  function NumbersTo(n: nat): (numbers: seq<uint64>)
    requires n < TWO_64
    ensures |numbers| == n && Rising(numbers)
  {
    seq(n, i requires 0 <= i < n => i + 1)
  }

  lemma EventsPrefix(s: Ingest, frame: nat -> Frame, clock: nat -> int, n: nat, i: nat)
    requires i <= n < TWO_64
    ensures EventsTo(s, frame, clock, n)[..i] == EventsTo(s, frame, clock, i)
  {}

  lemma {:induction false} NumbersOfEvents(s: Ingest, frame: nat -> Frame, clock: nat -> int, n: nat)
    requires n < TWO_64
    ensures Numbers(EventsTo(s, frame, clock, n), s) == NumbersTo(n)
  {
    if n > 0 {
      EventsPrefix(s, frame, clock, n, n - 1);
      NumbersOfEvents(s, frame, clock, n - 1);
      assert NumbersTo(n) == NumbersTo(n - 1) + [n];
    }
  }

  lemma {:induction false} SendingOwns(st: State, s: Ingest, frame: nat -> Frame, clock: nat -> int, n: nat)
    requires n < TWO_64 && Owns(st, s)
    ensures Owns(Sending(st, s, frame, clock, n), s)
  {
    if n > 0 {
      EventsPrefix(s, frame, clock, n, n - 1);
      SendingOwns(st, s, frame, clock, n - 1);
      OwnFrame(Sending(st, s, frame, clock, n - 1), s, n, frame(n), clock(n));
    }
  }

  lemma SendingOwnsThroughout(st: State, s: Ingest, frame: nat -> Frame, clock: nat -> int, n: nat)
    requires n < TWO_64 && Owns(st, s)
    ensures OwnsThroughout(st, EventsTo(s, frame, clock, n), s)
  {
    forall i | 0 <= i <= n
      ensures Owns(Later(st, EventsTo(s, frame, clock, n)[..i]), s)
    {
      EventsPrefix(s, frame, clock, n, i);
      SendingOwns(st, s, frame, clock, i);
    }
  }

  /** The keys of events 1 to n. */
  function KeysTo(instance: string, n: nat): (keys: seq<Key>)
    requires n < TWO_64
    ensures |keys| == n
  {
    seq(n, i requires 0 <= i < n => Key(instance, i + 1))
  }

  /** The events before m have all arrived, and m is dropped. */
  predicate DropsNext(history: seq<Key>, instance: string, m: nat)
    requires 0 < m < TWO_64
  {
    Dropped(history, instance, NumbersTo(m - 1), m)
  }

  lemma {:induction false} NothingDropped(history: seq<Key>, instance: string, n: nat)
    requires n < TWO_64
    requires forall m :: 0 < m <= n ==> !DropsNext(history, instance, m)
    ensures Kept(history, instance, NumbersTo(n)) == KeysTo(instance, n)
  {
    if n > 0 {
      NothingDropped(history, instance, n - 1);
      assert NumbersTo(n)[..n - 1] == NumbersTo(n - 1);
      assert KeysTo(instance, n) == KeysTo(instance, n - 1) + [Key(instance, n)];
      assert !DropsNext(history, instance, n);
    }
  }

  /** A process connects to a server without its tenant and sends k events, and all arrive. */
  function FirstLife(early: Ingest, frame: nat -> Frame, clock: nat -> int, k: nat): State
    requires k < TWO_64
  {
    Sending(RegisterIngest(map[], early, 0), early, frame, clock, k)
  }

  lemma FirstLifeRecords(early: Ingest, frame: nat -> Frame, clock: nat -> int, k: nat)
    requires k < TWO_64
    ensures Owns(FirstLife(early, frame, clock, k), early)
    ensures History(FirstLife(early, frame, clock, k), ClientOf(early)) == KeysTo(early.instance, k)
  {
    var st := RegisterIngest(map[], early, 0);
    assert Owns(st, early) && History(st, ClientOf(early)) == [];
    SendingOwns(st, early, frame, clock, k);
    SendingOwnsThroughout(st, early, frame, clock, k);
    NumbersOfEvents(early, frame, clock, k);
    OwnerHistory(st, EventsTo(early, frame, clock, k), early);
    NothingDropped([], early.instance, k);
    assert [] + KeysTo(early.instance, k) == KeysTo(early.instance, k);
  }

  /** All its events are accepted. */
  lemma FirstLifeAccepts(early: Ingest, frame: nat -> Frame, clock: nat -> int, m: nat)
    requires 0 < m < TWO_64
    ensures Accepts(FirstLife(early, frame, clock, m - 1), early, m)
  {
    FirstLifeRecords(early, frame, clock, m - 1);
    NewIsAccepted(FirstLife(early, frame, clock, m - 1), early, m);
    InWindow(KeysTo(early.instance, m - 1), WINDOW, Key(early.instance, m));
  }

  /** A history of events 1 to k drops events that come again without loss while k is within the window. */
  lemma {:induction false} GaplessDrops(instance: string, k: nat, m: nat)
    requires k < TWO_64 && 0 < m < TWO_64
    ensures Dropped(KeysTo(instance, k), instance, NumbersTo(m - 1), m) <==> m <= k <= WINDOW
  {
    var history := KeysTo(instance, k);
    if k <= WINDOW {
      assert NumbersTo(m - 1) + [m] == NumbersTo(m);
      SmallHistoryDrops(history, instance, NumbersTo(m - 1), m);
      assert m <= k ==> history[m - 1] == Key(instance, m);
    } else {
      forall n | 0 < n <= m - 1
        ensures !DropsNext(history, instance, n)
      {
        GaplessDrops(instance, k, n);
      }
      NothingDropped(history, instance, m - 1);
    }
  }

  /**
   After a first life whose events 1 to k all arrived, and while none is lost now: event m is dropped exactly if m <= k
   and k is at most the size of the window.
   */
  lemma GaplessRestartDropsExactly(early: Ingest, late: Ingest, frame: nat -> Frame, clock: nat -> int,
                                   frame': nat -> Frame, clock': nat -> int, k: nat, m: nat, now: int)
    requires early.tenant == late.tenant && early.source == late.source && early.instance == late.instance
    requires k < TWO_64 && 0 < m < TWO_64
    ensures var restarted := RegisterIngest(FirstLife(early, frame, clock, k), late, now);
            var st := Sending(restarted, late, frame', clock', m - 1);
            Owns(st, late) && (Accepts(st, late, m) <==> !(m <= k <= WINDOW))
  {
    var first := FirstLife(early, frame, clock, k);
    FirstLifeRecords(early, frame, clock, k);
    assert !Refuses(first, late);
    TakesOver(first, late, now);
    hide *;
    var restarted := RegisterIngest(first, late, now);
    SendingOwns(restarted, late, frame', clock', m - 1);
    SendingOwnsThroughout(restarted, late, frame', clock', m - 1);
    NumbersOfEvents(late, frame', clock', m - 1);
    GaplessDrops(late.instance, k, m);
    RestartFromNumbers(first, late, now, frame', clock', m);
  }

  lemma SendingIsLater(st: State, s: Ingest, frame: nat -> Frame, clock: nat -> int, n: nat)
    requires n < TWO_64
    ensures Sending(st, s, frame, clock, n) == Later(st, EventsTo(s, frame, clock, n))
  {}

  lemma RestartFromNumbers(st: State, late: Ingest, now: int, frame': nat -> Frame, clock': nat -> int, m: nat)
    requires 0 < m < TWO_64 && !Refuses(st, late)
    ensures Accepts(Sending(RegisterIngest(st, late, now), late, frame', clock', m - 1), late, m)
            <==> !Dropped(History(st, ClientOf(late)), late.instance, NumbersTo(m - 1), m)
  {
    assert NumbersTo(m - 1) + [m] == NumbersTo(m);
    hide *;
    TakesOver(st, late, now);
    SendingOwnsThroughout(RegisterIngest(st, late, now), late, frame', clock', m - 1);
    NumbersOfEvents(late, frame', clock', m - 1);
    SendingIsLater(RegisterIngest(st, late, now), late, frame', clock', m - 1);
    RestartDropsExactly(st, late, now, EventsTo(late, frame', clock', m - 1), m);
  }

  // ---------------------------------------------------------------- departure before the restart

  /** Something else keeps the tenant: a watcher, or an active ingest session of another source. */
  predicate Inhabited(st: State, s: Ingest) {
    && s.tenant in st
    && (st[s.tenant].watchers != map[]
        || exists n :: n in st[s.tenant].sources && n != s.source && st[s.tenant].sources[n].active.Some?)
  }

  /**
   When the owner unregisters, the window goes exactly if nothing else keeps the tenant; otherwise the history stays as
   it was for whoever comes next.
   */
  lemma DepartureClearsWindow(st: State, early: Ingest, now: int)
    requires Owns(st, early)
    ensures var after := UnregisterIngest(st, early, now);
            && (early.tenant in after <==> Inhabited(st, early))
            && History(after, ClientOf(early)) == if Inhabited(st, early) then History(st, ClientOf(early)) else []
  {
    var source := st[early.tenant].sources[early.source].(active := None, lastSeen := now);
    var left := WithSource(st, early.tenant, early.source, source);
    assert forall n :: n in left[early.tenant].sources && n != early.source ==>
      left[early.tenant].sources[n] == st[early.tenant].sources[n];
    assert HasActiveIngest(left[early.tenant]) <==>
      exists n :: n in st[early.tenant].sources && n != early.source && st[early.tenant].sources[n].active.Some?;
  }

  /** Without a history, nothing is dropped. */
  lemma ClearedWindowDropsNothing(instance: string, before: seq<uint64>, m: uint64)
    ensures !Dropped([], instance, before, m)
  {}
}
