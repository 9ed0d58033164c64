/** The duplicate-suppression window of one source (`sequenceWindow`). */
module SequenceWindows {
  import opened Basics

  datatype Key = Key(instance: string, number: uint64)

  /** Reference definition: a key is a duplicate exactly when it is among the last `max` accepted keys. */
  predicate Duplicate(accepted: seq<Key>, max: nat, key: Key) {
    key in LastN(accepted, max)
  }

  /** The history after offering one key. */
  function Record(accepted: seq<Key>, max: nat, key: Key): seq<Key> {
    if Duplicate(accepted, max, key) then accepted else accepted + [key]
  }

  /** The history after any sequence of calls on a new window. */
  function Accepted(calls: seq<Key>, max: nat): seq<Key> {
    if calls == [] then [] else Record(Accepted(calls[..|calls| - 1], max), max, calls[|calls| - 1])
  }

  /** Two acceptances of one key have at least `max` other acceptances between them. */
  ghost predicate Spaced(accepted: seq<Key>, max: nat) {
    forall i, j :: 0 <= i < j < |accepted| && accepted[i] == accepted[j] ==> j - i > max
  }

  lemma TailIsDistinct(accepted: seq<Key>, max: nat)
    requires Spaced(accepted, max)
    ensures Distinct(LastN(accepted, max))
  {}

  /** The window holds the keys of the last max places. */
  lemma InWindow(accepted: seq<Key>, max: nat, key: Key)
    ensures Duplicate(accepted, max, key) <==>
            exists i :: 0 <= i < |accepted| && |accepted| - max <= i && accepted[i] == key
  {
    var last := LastN(accepted, max);
    var skipped := |accepted| - |last|;
    assert forall i :: 0 <= i < |last| ==> last[i] == accepted[skipped + i];
    if i :| 0 <= i < |accepted| && |accepted| - max <= i && accepted[i] == key {
      assert last[i - skipped] == key;
    }
  }

  lemma RecordKeepsSpacing(accepted: seq<Key>, max: nat, key: Key)
    requires Spaced(accepted, max)
    ensures Spaced(Record(accepted, max, key), max)
    ensures Distinct(LastN(Record(accepted, max, key), max))
  {
    InWindow(accepted, max, key);
    hide Duplicate, LastN, Distinct;
    assert Spaced(Record(accepted, max, key), max);
    TailIsDistinct(Record(accepted, max, key), max);
  }

  /** Over every sequence of calls, repeats are far apart and nothing older than `max` acceptances is remembered. */
  lemma {:induction false} RepeatsAreSpaced(calls: seq<Key>, max: nat)
    ensures Spaced(Accepted(calls, max), max)
    ensures Distinct(LastN(Accepted(calls, max), max))
  {
    if calls != [] {
      var before := calls[..|calls| - 1];
      RepeatsAreSpaced(before, max);
      RecordKeepsSpacing(Accepted(before, max), max, calls[|calls| - 1]);
    }
  }

  /** No key is lost for good: at every point of every run, a key is refused only if it was accepted before. */
  lemma {:induction false} EveryKeyIsAccepted(calls: seq<Key>, max: nat, key: Key)
    ensures key in calls <==> key in Accepted(calls, max)
  {
    if calls != [] {
      var before := calls[..|calls| - 1];
      EveryKeyIsAccepted(before, max, key);
      assert calls == before + [calls[|calls| - 1]];
    }
  }

  /** The set-plus-queue of the program. `accepted` is its ghost history; Valid() says the pair holds its tail. */
  class SequenceWindow {
    const max: nat
    var seen: set<Key>
    var order: seq<Key>
    ghost var accepted: seq<Key>
    ghost const home: (string, string)  // the tenant and source this window was made for

    ghost predicate Valid()
      reads this
    {
      && order == LastN(accepted, max)
      && (forall k :: k in seen <==> k in order)
      && Spaced(accepted, max)
    }

    constructor (max: nat, ghost home: (string, string))
      ensures Valid() && accepted == [] && this.max == max && this.home == home
    {
      this.max := max;
      this.home := home;
      seen, order, accepted := {}, [], [];
    }

    method SeenBefore(instanceID: string, number: uint64) returns (duplicate: bool)
      requires Valid()
      modifies this
      ensures Valid()
      ensures duplicate <==> Duplicate(old(accepted), max, Key(instanceID, number))
      ensures accepted == Record(old(accepted), max, Key(instanceID, number))
      ensures Distinct(order) && |order| <= max
    {
      var key := Key(instanceID, number);
      RecordKeepsSpacing(accepted, max, key);
      if key in seen {
        return true;
      }
      seen := seen + {key};
      order := order + [key];
      accepted := accepted + [key];
      assert Distinct(order);
      assert forall k :: k in seen <==> k in order;
      if |order| > max {
        var oldest := order[0];
        assert order == [oldest] + order[1..];
        assert oldest !in order[1..];
        order := order[1..];
        seen := seen - {oldest};
        assert forall k :: k in seen <==> k in order;
      }
      return false;
    }
  }
}
