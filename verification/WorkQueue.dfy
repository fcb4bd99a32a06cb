/**
 The rate-limited work queue the controller keeps for each KubeletUpgrade, reduced to what the
 controller relies on: a FIFO of keys, the set of keys waiting for a worker ("dirty"), and the
 set of keys a worker holds ("processing").
 */
module WorkQueue {
  import opened Basics

  type Key = string

  datatype Queue = Queue(keys: seq<Key>, dirty: set<Key>, processing: set<Key>) {

    ghost predicate Valid() {
      && Distinct(keys)
      && (forall k :: k in keys ==> k in dirty && k !in processing)
      && (forall k :: k in dirty ==> k in keys || k in processing)
    }

    /** No worker holds a key: the state of a queue between two upgrade runs. */
    ghost predicate Idle() {
      Valid() && processing == {}
    }

    function Add(k: Key): Queue {
      if k in dirty then this
      else if k in processing then this.(dirty := dirty + {k})
      else Queue(keys + [k], dirty + {k}, processing)
    }

    function Get(): Queue
      requires keys != []
    {
      Queue(keys[1..], dirty - {keys[0]}, processing + {keys[0]})
    }

    function Done(k: Key): Queue {
      if k in dirty then Queue(keys + [k], dirty, processing - {k})
      else this.(processing := processing - {k})
    }

    function AddAll(ks: seq<Key>): Queue
      decreases |ks|
    {
      if ks == [] then this else Add(ks[0]).AddAll(ks[1..])
    }
  }

  const EMPTY := Queue([], {}, {})

  /** Every operation keeps the three components consistent. */
  lemma OperationsKeepValid(q: Queue, k: Key)
    requires q.Valid()
    ensures q.Add(k).Valid()
    ensures q.keys != [] ==> q.Get().Valid()
    ensures k in q.processing ==> q.Done(k).Valid()
  {
    if q.keys != [] {
      forall x | x in q.Get().keys
        ensures x in q.Get().dirty && x !in q.Get().processing
      {
        var i :| 0 <= i < |q.keys[1..]| && q.keys[1..][i] == x;
        assert q.keys[i + 1] == x;
      }
    }
  }

  /**
   Adding a key is never forgotten: it waits at once, or if a worker holds it, as soon as that worker is
   done with it. A key that is not added again does not come back, and no operation moves another key.
   */
  lemma AddIsNotForgotten(q: Queue, k: Key)
    requires q.Valid()
    ensures k !in q.processing ==> q.Add(k).keys == if k in q.keys then q.keys else q.keys + [k]
    ensures k in q.processing ==> q.Add(k).keys == q.keys && q.Add(k).Done(k).keys == q.keys + [k]
    ensures k in q.processing && k !in q.dirty ==> q.Done(k).keys == q.keys
    ensures q.keys != [] ==> q.Get().keys == q.keys[1..] && q.Get().processing == q.processing + {q.keys[0]}
  {
  }

  /**
   Re-adding keys never moves a waiting key: the old keys stay in front, in order, and what
   follows are exactly the added keys that were not waiting already.
   */
  lemma {:induction false} AddAllExtends(q: Queue, ks: seq<Key>)
    requires q.Idle()
    ensures q.AddAll(ks).Idle()
    ensures q.keys <= q.AddAll(ks).keys
    ensures Elems(q.AddAll(ks).keys) == Elems(q.keys) + Elems(ks)
    decreases |ks|
  {
    if ks != [] {
      OperationsKeepValid(q, ks[0]);
      AddAllExtends(q.Add(ks[0]), ks[1..]);
      assert Elems(ks) == {ks[0]} + Elems(ks[1..]);
      assert Elems(q.Add(ks[0]).keys) == Elems(q.keys) + {ks[0]};
    }
  }

  /** The keys that have not been seen, each at its first occurrence. */
  function FirstSeen(ks: seq<Key>, seen: set<Key>): seq<Key> {
    if ks == [] then []
    else if ks[0] in seen then FirstSeen(ks[1..], seen)
    else [ks[0]] + FirstSeen(ks[1..], seen + {ks[0]})
  }

  /** New keys are appended in the order in which they are first added. */
  lemma {:induction false} AddAllKeys(q: Queue, ks: seq<Key>)
    requires q.Idle()
    ensures q.AddAll(ks).keys == q.keys + FirstSeen(ks, Elems(q.keys))
    decreases |ks|
  {
    if ks != [] {
      OperationsKeepValid(q, ks[0]);
      AddAllKeys(q.Add(ks[0]), ks[1..]);
      if ks[0] in q.keys {
        assert q.Add(ks[0]) == q;
      } else {
        assert q.Add(ks[0]).keys == q.keys + [ks[0]];
        assert Elems(q.keys + [ks[0]]) == Elems(q.keys) + {ks[0]};
      }
    }
  }
}
