/**
 * Plain JavaScript objects from role key to amount (`rolePrices`,
 * `roleDiscounts`), modelled as association lists in insertion order.
 * The facts about each operation are separate lemmas, so that a proof only
 * pays for the ones it calls.
 */
module Amounts {

  type Keyed = seq<(string, int)>

  /** The key set of an association list. */
  function Keys(kv: Keyed): set<string> {
    if kv == [] then {} else {kv[0].0} + Keys(kv[1..])
  }

  /** A key is present exactly when some entry carries it. */
  lemma {:induction false} KeysMembership(kv: Keyed)
    ensures forall i :: 0 <= i < |kv| ==> kv[i].0 in Keys(kv)
    ensures forall k :: k in Keys(kv) ==> exists i :: 0 <= i < |kv| && kv[i].0 == k
  {
    if kv != [] {
      KeysMembership(kv[1..]);
      forall k | k in Keys(kv)
        ensures exists i :: 0 <= i < |kv| && kv[i].0 == k
      {
        if k != kv[0].0 {
          var j :| 0 <= j < |kv[1..]| && kv[1..][j].0 == k;
          assert kv[j + 1].0 == k;
        }
      }
      forall i | 0 <= i < |kv|
        ensures kv[i].0 in Keys(kv)
      {
        if i > 0 {
          assert kv[i] == kv[1..][i - 1];
        }
      }
    }
  }

  /** Objects never hold a key twice. */
  ghost predicate UniqueKeys(kv: Keyed) {
    forall i, j :: 0 <= i < j < |kv| ==> kv[i].0 != kv[j].0
  }

  /** In a list with unique keys, the head's key does not occur in the tail. */
  lemma UniqueHeadNotInTail(kv: Keyed)
    requires kv != [] && UniqueKeys(kv)
    ensures kv[0].0 !in Keys(kv[1..]) && UniqueKeys(kv[1..])
  {
    KeysMembership(kv[1..]);
  }

  /** `Number(obj[k]) || 0`: the amount stored under `k`, or 0 when `k` is absent. */
  function Lookup(kv: Keyed, k: string): int {
    if kv == [] then 0 else if kv[0].0 == k then kv[0].1 else Lookup(kv[1..], k)
  }

  /** A key that is not present reads as 0. */
  lemma {:induction false} LookupAbsent(kv: Keyed, k: string)
    requires k !in Keys(kv)
    ensures Lookup(kv, k) == 0
  {
    if kv != [] {
      LookupAbsent(kv[1..], k);
    }
  }

  /** `Object.values(obj).reduce((s, v) => s + v, 0)`. */
  function SumValues(kv: Keyed): int {
    if kv == [] then 0 else kv[0].1 + SumValues(kv[1..])
  }

  /** `obj[k] = v`: overwrite in place when `k` is present, otherwise append. */
  function Put(kv: Keyed, k: string, v: int): Keyed {
    if kv == [] then [(k, v)]
    else if kv[0].0 == k then [(k, v)] + kv[1..]
    else [kv[0]] + Put(kv[1..], k, v)
  }

  /** After writing `k`, it reads back `v`, every other key reads as before, and only `k` can be new. */
  lemma {:induction false} PutLookup(kv: Keyed, k: string, v: int)
    ensures Keys(Put(kv, k, v)) == Keys(kv) + {k}
    ensures Lookup(Put(kv, k, v), k) == v
    ensures forall k' :: k' != k ==> Lookup(Put(kv, k, v), k') == Lookup(kv, k')
  {
    if kv != [] && kv[0].0 != k {
      PutLookup(kv[1..], k, v);
    }
  }

  /** Writing a key never duplicates it. */
  lemma {:induction false} PutKeepsUniqueKeys(kv: Keyed, k: string, v: int)
    requires UniqueKeys(kv)
    ensures UniqueKeys(Put(kv, k, v))
  {
    if kv != [] && kv[0].0 != k {
      UniqueHeadNotInTail(kv);
      PutKeepsUniqueKeys(kv[1..], k, v);
      PutLookup(kv[1..], k, v);
      var tail := Put(kv[1..], k, v);
      assert Put(kv, k, v) == [kv[0]] + tail;
      KeysMembership(tail);
      assert kv[0].0 !in Keys(tail);
    } else if kv != [] {
      UniqueHeadNotInTail(kv);
      KeysMembership(kv[1..]);
    }
  }

  /** The list without the entries under `k`. */
  function Remove(kv: Keyed, k: string): Keyed {
    if kv == [] then []
    else if kv[0].0 == k then Remove(kv[1..], k)
    else [kv[0]] + Remove(kv[1..], k)
  }

  /** Removing `k` drops exactly that key and keeps every other amount and the uniqueness of keys. */
  lemma {:induction false} RemoveLookup(kv: Keyed, k: string)
    ensures Keys(Remove(kv, k)) == Keys(kv) - {k}
    ensures forall k' :: k' != k ==> Lookup(Remove(kv, k), k') == Lookup(kv, k')
    ensures UniqueKeys(kv) ==> UniqueKeys(Remove(kv, k))
  {
    if kv != [] {
      RemoveLookup(kv[1..], k);
      if UniqueKeys(kv) {
        UniqueHeadNotInTail(kv);
        if kv[0].0 != k {
          var tail := Remove(kv[1..], k);
          KeysMembership(tail);
          assert kv[0].0 !in Keys(tail);
          assert Remove(kv, k) == [kv[0]] + tail;
        }
      }
    }
  }

  /** With unique keys, the total splits into the amount under `k` and the total of the rest. */
  lemma {:induction false} SumSplitsAtKey(kv: Keyed, k: string)
    requires UniqueKeys(kv)
    ensures SumValues(kv) == Lookup(kv, k) + SumValues(Remove(kv, k))
  {
    if kv != [] {
      UniqueHeadNotInTail(kv);
      SumSplitsAtKey(kv[1..], k);
      if kv[0].0 == k {
        RemoveAbsent(kv[1..], k);
        LookupAbsent(kv[1..], k);
      }
    }
  }

  /** Removing an absent key changes nothing. */
  lemma {:induction false} RemoveAbsent(kv: Keyed, k: string)
    requires k !in Keys(kv)
    ensures Remove(kv, k) == kv
  {
    if kv != [] {
      RemoveAbsent(kv[1..], k);
    }
  }
}
