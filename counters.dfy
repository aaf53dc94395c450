/**
 * The Counter of the telemetry engine: a JavaScript `Map<number|string, number>`
 * from a category label to a count, kept as its entries in insertion order.
 * The Map primitives `has`, `get` and `set` are modelled on that sequence,
 * and `ToObject` is the plain key->count object a Counter flattens into.
 */
module Counters {
  import opened Wrappers

  /** A category label: a Counter key is a number or a string. */
  datatype Key = IntKey(i: int) | StrKey(s: string)

  /** The entries of a Map, in insertion order. */
  type Counter = seq<(Key, nat)>

  /** A Map never holds one key twice. */
  predicate UniqueKeys(c: Counter)
  {
    forall i, j :: 0 <= i < j < |c| ==> c[i].0 != c[j].0
  }

  function KeySet(c: Counter): set<Key>
  {
    set i | 0 <= i < |c| :: c[i].0
  }

  /** The position of the entry for `k`, the first one if there were several. */
  function Find(c: Counter, k: Key): (r: Option<nat>)
    ensures r.Some? ==> r.value < |c| && c[r.value].0 == k
    ensures r.Some? ==> forall j :: 0 <= j < r.value ==> c[j].0 != k
    ensures r.None? <==> forall j :: 0 <= j < |c| ==> c[j].0 != k
  {
    if |c| == 0 then None
    else if c[0].0 == k then Some(0)
    else match Find(c[1..], k)
      case None => None
      case Some(i) => Some(i + 1)
  }

  /** The first entry for `k` determines what `Find` reports. */
  lemma FindAt(c: Counter, k: Key, i: nat)
    requires i < |c| && c[i].0 == k
    requires forall j :: 0 <= j < i ==> c[j].0 != k
    ensures Find(c, k) == Some(i)
  {
  }

  /** Two entry lists that agree on where `k` occurs agree on `Find`. */
  lemma FindAgrees(c: Counter, c': Counter, k: Key)
    requires |c| <= |c'|
    requires forall j :: 0 <= j < |c| ==> (c'[j].0 == k <==> c[j].0 == k)
    requires forall j :: |c| <= j < |c'| ==> c'[j].0 != k
    ensures Find(c', k) == Find(c, k)
  {
    match Find(c, k)
    case None =>
    case Some(i) => FindAt(c', k, i);
  }

  /** `Map.prototype.has` */
  function Has(c: Counter, k: Key): bool
  {
    Find(c, k).Some?
  }

  /** `Map.prototype.get`, with `undefined` as None */
  function Get(c: Counter, k: Key): Option<nat>
  {
    match Find(c, k)
    case None => None
    case Some(i) => Some(c[i].1)
  }

  /** `Map.prototype.set`: an existing key keeps its place, a new key goes last. */
  function Set(c: Counter, k: Key, v: nat): Counter
  {
    match Find(c, k)
    case None => c + [(k, v)]
    case Some(i) => c[i := (k, v)]
  }

  /** The count recorded for `k`, 0 when the key is absent. */
  function Count(c: Counter, k: Key): nat
  {
    match Get(c, k)
    case None => 0
    case Some(v) => v
  }

  /** The Counter's increment: a new key starts at 1, an existing one goes up by 1. */
  function Increment(c: Counter, k: Key): Counter
  {
    Set(c, k, Count(c, k) + 1)
  }

  /** The sum of all counts. */
  function Sum(c: Counter): nat
  {
    if |c| == 0 then 0 else c[0].1 + Sum(c[1..])
  }

  /** The plain object `{k: v, ...}` that assigning every entry in order produces. */
  function ToObject(c: Counter): map<Key, nat>
  {
    if |c| == 0 then map[] else ToObject(c[..|c| - 1])[c[|c| - 1].0 := c[|c| - 1].1]
  }

  lemma HasIffInKeySet(c: Counter, k: Key)
    ensures Has(c, k) <==> k in KeySet(c)
  {
    if Has(c, k) {
      assert c[Find(c, k).value].0 == k;
    }
  }

  /** After `set(k, v)`, `get(k)` is `v` and every other key reads as before. */
  lemma SetGet(c: Counter, k: Key, v: nat, k': Key)
    ensures Get(Set(c, k, v), k') == if k' == k then Some(v) else Get(c, k')
  {
    var c' := Set(c, k, v);
    match Find(c, k)
    case None =>
      assert c' == c + [(k, v)];
      if k' == k {
        FindAt(c', k', |c|);
      } else {
        FindAgrees(c, c', k');
      }
    case Some(i) =>
      assert c' == c[i := (k, v)];
      if k' == k {
        FindAt(c', k', i);
      } else {
        FindAgrees(c, c', k');
      }
  }

  /** `set` adds its key to the key set and keeps keys unique. */
  lemma SetKeys(c: Counter, k: Key, v: nat)
    ensures KeySet(Set(c, k, v)) == KeySet(c) + {k}
    ensures UniqueKeys(c) ==> UniqueKeys(Set(c, k, v))
  {
    var c' := Set(c, k, v);
    match Find(c, k)
    case None =>
      assert c' == c + [(k, v)];
      assert c'[|c|].0 == k;
      assert KeySet(c') == KeySet(c) + {k} by {
        forall x | x in KeySet(c') ensures x in KeySet(c) + {k} {
          var j :| 0 <= j < |c'| && c'[j].0 == x;
          if j < |c| { assert c[j].0 == x; }
        }
        forall x | x in KeySet(c) ensures x in KeySet(c') {
          var j :| 0 <= j < |c| && c[j].0 == x;
          assert c'[j].0 == x;
        }
      }
    case Some(i) =>
      assert c' == c[i := (k, v)];
      assert forall j :: 0 <= j < |c| ==> c'[j].0 == c[j].0;
      assert KeySet(c') == KeySet(c) + {k} by {
        forall x | x in KeySet(c') ensures x in KeySet(c) {
          var j :| 0 <= j < |c'| && c'[j].0 == x;
          assert c[j].0 == x;
        }
        forall x | x in KeySet(c) ensures x in KeySet(c') {
          var j :| 0 <= j < |c| && c[j].0 == x;
          assert c'[j].0 == x;
        }
      }
  }

  /** Setting a key twice is setting it once to the second value. */
  lemma SetTwice(c: Counter, k: Key, v: nat, w: nat)
    ensures Set(Set(c, k, v), k, w) == Set(c, k, w)
  {
    match Find(c, k)
    case None =>
      FindAt(c + [(k, v)], k, |c|);
    case Some(i) =>
      FindAt(c[i := (k, v)], k, i);
  }

  lemma {:induction false} SumAppend(c: Counter, e: (Key, nat))
    ensures Sum(c + [e]) == Sum(c) + e.1
  {
    if |c| > 0 {
      assert (c + [e])[1..] == c[1..] + [e];
      SumAppend(c[1..], e);
    }
  }

  lemma {:induction false} SumUpdate(c: Counter, i: nat, e: (Key, nat))
    requires i < |c|
    ensures Sum(c[i := e]) + c[i].1 == Sum(c) + e.1
  {
    if i > 0 {
      assert c[i := e][1..] == c[1..][i - 1 := e];
      SumUpdate(c[1..], i - 1, e);
    }
  }

  /** Replacing the count of `k` by `v` moves the total by the difference. */
  lemma SumSet(c: Counter, k: Key, v: nat)
    ensures Sum(Set(c, k, v)) + Count(c, k) == Sum(c) + v
  {
    match Find(c, k)
    case None => SumAppend(c, (k, v));
    case Some(i) => SumUpdate(c, i, (k, v));
  }

  /**
   * Increment adds one to the count of `k` and to the total, adds `k`
   * to the keys, and leaves every other count as it was.
   */
  lemma IncrementSpec(c: Counter, k: Key)
    ensures forall k' :: Count(Increment(c, k), k') == Count(c, k') + (if k' == k then 1 else 0)
    ensures Sum(Increment(c, k)) == Sum(c) + 1
    ensures KeySet(Increment(c, k)) == KeySet(c) + {k}
    ensures UniqueKeys(c) ==> UniqueKeys(Increment(c, k))
  {
    forall k' ensures Count(Increment(c, k), k') == Count(c, k') + (if k' == k then 1 else 0) {
      SetGet(c, k, Count(c, k) + 1, k');
    }
    SumSet(c, k, Count(c, k) + 1);
    SetKeys(c, k, Count(c, k) + 1);
  }

  /** With unique keys, the listed count of each entry is the count `get` reports. */
  lemma CountOfEntry(c: Counter, i: nat)
    requires UniqueKeys(c) && i < |c|
    ensures Find(c, c[i].0) == Some(i) && Count(c, c[i].0) == c[i].1
  {
  }

  /**
   * Flattening is exact: the object's keys are the Counter's keys and each
   * key maps to the count its (unique) entry carries.
   */
  lemma {:induction false} ToObjectSpec(c: Counter)
    requires UniqueKeys(c)
    ensures ToObject(c).Keys == KeySet(c)
    ensures forall i :: 0 <= i < |c| ==> ToObject(c)[c[i].0] == c[i].1
  {
    if |c| > 0 {
      var p := c[..|c| - 1];
      ToObjectSpec(p);
      assert KeySet(c) == KeySet(p) + {c[|c| - 1].0} by {
        forall x | x in KeySet(c) ensures x in KeySet(p) + {c[|c| - 1].0} {
          var j :| 0 <= j < |c| && c[j].0 == x;
          if j < |c| - 1 { assert p[j].0 == x; }
        }
        forall x | x in KeySet(p) ensures x in KeySet(c) {
          var j :| 0 <= j < |p| && p[j].0 == x;
          assert c[j].0 == x;
        }
      }
      forall i | 0 <= i < |c| ensures ToObject(c)[c[i].0] == c[i].1 {
        if i < |c| - 1 {
          assert p[i] == c[i];
        }
      }
    }
  }

  /** The flattened object agrees with `has` and `get` on every key. */
  lemma ToObjectAgreesWithMap(c: Counter, k: Key)
    requires UniqueKeys(c)
    ensures k in ToObject(c) <==> Has(c, k)
    ensures k in ToObject(c) ==> ToObject(c)[k] == Count(c, k)
  {
    ToObjectSpec(c);
    HasIffInKeySet(c, k);
    if Has(c, k) {
      var i := Find(c, k).value;
      CountOfEntry(c, i);
    }
  }
}
