/**
 * Python's insertion-ordered `dict` with string keys, as app.py uses it for `battlecards`:
 * a sequence of (key, value) pairs in which assigning to a key already present replaces its
 * value where it stands and assigning to a new key appends the pair.
 */
module OrderedDict {
  import opened Wrappers

  function Keys<V>(d: seq<(string, V)>): (ks: seq<string>)
    ensures |ks| == |d| && forall i :: 0 <= i < |d| ==> ks[i] == d[i].0
  {
    seq(|d|, i requires 0 <= i < |d| => d[i].0)
  }

  predicate Distinct(ks: seq<string>)
  {
    forall i, j :: 0 <= i < j < |ks| ==> ks[i] != ks[j]
  }

  /** `d.get(k)`: the value stored under `k`. */
  function Get<V>(d: seq<(string, V)>, k: string): Option<V>
  {
    if d == [] then None else if d[0].0 == k then Some(d[0].1) else Get(d[1..], k)
  }

  /** `d[k] = v` */
  function Put<V>(d: seq<(string, V)>, k: string, v: V): seq<(string, V)>
  {
    if d == [] then [(k, v)]
    else if d[0].0 == k then [(k, v)] + d[1..]
    else [d[0]] + Put(d[1..], k, v)
  }

  /**
   * Assigning to a new key appends the pair; assigning to a present key keeps the keys where they
   * are. Either way the key then holds the new value and every other key keeps its own.
   */
  lemma {:induction false} PutFacts<V>(d: seq<(string, V)>, k: string, v: V)
    ensures k !in Keys(d) ==> Put(d, k, v) == d + [(k, v)]
    ensures k in Keys(d) ==> Keys(Put(d, k, v)) == Keys(d)
    ensures Get(Put(d, k, v), k) == Some(v)
    ensures forall k' :: k' != k ==> Get(Put(d, k, v), k') == Get(d, k')
  {
    if d != [] && d[0].0 != k {
      assert Keys(d) == [d[0].0] + Keys(d[1..]);
      PutFacts(d[1..], k, v);
      var r := Put(d, k, v);
      assert r[1..] == Put(d[1..], k, v);
      if k in Keys(d) {
        assert Keys(r) == [d[0].0] + Keys(Put(d[1..], k, v));
      }
    }
  }

  /** The assignments `d[k] = v` for each pair `(k, v)` of `ps`, in order. */
  function PutAll<V>(d: seq<(string, V)>, ps: seq<(string, V)>): seq<(string, V)>
  {
    if ps == [] then d
    else
      var last := ps[|ps| - 1];
      Put(PutAll(d, ps[..|ps| - 1]), last.0, last.1)
  }

  /** The keys of `ks` in the order of their first occurrence. */
  function Dedup(ks: seq<string>): seq<string>
  {
    if ks == [] then []
    else
      var init := ks[..|ks| - 1];
      if ks[|ks| - 1] in init then Dedup(init) else Dedup(init) + [ks[|ks| - 1]]
  }

  /** The value of the last pair of `ps` whose key is `k`. */
  function Last<V>(ps: seq<(string, V)>, k: string): Option<V>
  {
    if ps == [] then None
    else if ps[|ps| - 1].0 == k then Some(ps[|ps| - 1].1)
    else Last(ps[..|ps| - 1], k)
  }

  /** Dropping repeated keys keeps every key once, and shortens the sequence exactly when a key repeats. */
  lemma {:induction false} DedupFacts(ks: seq<string>)
    ensures forall x :: x in Dedup(ks) <==> x in ks
    ensures Distinct(Dedup(ks))
    ensures Distinct(ks) ==> Dedup(ks) == ks
    ensures !Distinct(ks) ==> |Dedup(ks)| < |ks|
    ensures |Dedup(ks)| <= |ks|
  {
    if ks != [] {
      var init, x := ks[..|ks| - 1], ks[|ks| - 1];
      DedupFacts(init);
      assert ks == init + [x];
      assert Distinct(ks) <==> Distinct(init) && x !in init by {
        if Distinct(init) && x !in init {
          forall i, j | 0 <= i < j < |ks| ensures ks[i] != ks[j] {
            if j == |ks| - 1 {
              assert ks[i] == init[i];
            } else {
              assert ks[i] == init[i] && ks[j] == init[j];
            }
          }
        }
        if Distinct(ks) {
          forall i | 0 <= i < |init| ensures init[i] != x {
            assert ks[i] == init[i];
          }
        }
      }
      if x !in init {
        var dd := Dedup(init);
        forall i, j | 0 <= i < j < |dd + [x]| ensures (dd + [x])[i] != (dd + [x])[j] {
          if j == |dd| {
            assert dd[i] in dd;
          }
        }
      }
    }
  }

  lemma KeysOfInit<V>(ps: seq<(string, V)>)
    requires ps != []
    ensures Keys(ps) == Keys(ps[..|ps| - 1]) + [ps[|ps| - 1].0]
  {
  }

  /** Assigning the pairs of `ps` one by one to an empty dict keeps each key once, at its first position. */
  lemma {:induction false} PutAllKeys<V>(ps: seq<(string, V)>)
    ensures Keys(PutAll([], ps)) == Dedup(Keys(ps))
  {
    if ps != [] {
      var init := ps[..|ps| - 1];
      PutAllKeys(init);
      PutFacts(PutAll([], init), ps[|ps| - 1].0, ps[|ps| - 1].1);
      DedupFacts(Keys(init));
      KeysOfInit(ps);
      assert Keys(ps)[..|ps| - 1] == Keys(init);
    }
  }

  /** After assigning the pairs of `ps` one by one, each key holds the value of its last assignment. */
  lemma {:induction false} PutAllGet<V>(ps: seq<(string, V)>, k: string)
    ensures Get(PutAll([], ps), k) == Last(ps, k)
  {
    if ps != [] {
      PutAllGet(ps[..|ps| - 1], k);
      PutFacts(PutAll([], ps[..|ps| - 1]), ps[|ps| - 1].0, ps[|ps| - 1].1);
    }
  }

  /** When no key repeats, assigning the pairs of `ps` one by one to an empty dict gives `ps` itself. */
  lemma {:induction false} PutAllDistinct<V>(ps: seq<(string, V)>)
    requires Distinct(Keys(ps))
    ensures PutAll([], ps) == ps
  {
    if ps != [] {
      var init, last := ps[..|ps| - 1], ps[|ps| - 1];
      KeysOfInit(ps);
      assert Distinct(Keys(init)) by {
        forall i, j | 0 <= i < j < |init| ensures Keys(init)[i] != Keys(init)[j] {
          assert Keys(ps)[i] == Keys(init)[i] && Keys(ps)[j] == Keys(init)[j];
        }
      }
      assert last.0 !in Keys(init) by {
        forall i | 0 <= i < |init| ensures Keys(init)[i] != last.0 {
          assert Keys(ps)[i] == Keys(init)[i];
        }
      }
      PutAllDistinct(init);
      PutFacts(init, last.0, last.1);
      assert init + [last] == ps;
    }
  }

  /** The last pair with a given key is the one whose value `Last` reports. */
  lemma {:induction false} LastAt<V>(ps: seq<(string, V)>, i: nat)
    requires i < |ps|
    requires forall j :: i < j < |ps| ==> ps[j].0 != ps[i].0
    ensures Last(ps, ps[i].0) == Some(ps[i].1)
  {
    if i < |ps| - 1 {
      var init := ps[..|ps| - 1];
      assert init[i] == ps[i];
      forall j | i < j < |init| ensures init[j].0 != init[i].0 {
        assert init[j] == ps[j];
      }
      LastAt(init, i);
    }
  }

  /** A dict object, updated in place. */
  class Dict<V> {
    var items: seq<(string, V)>

    /** `{}` */
    constructor ()
      ensures items == []
    {
      items := [];
    }

    /** `self[k] = v` */
    method Set(k: string, v: V)
      modifies this
      ensures items == Put(old(items), k, v)
    {
      items := Put(items, k, v);
    }
  }
}
