/**
 * The interning discipline shared by the profile's three tables.
 *
 * A table is a sequence of keys in first-seen order plus a map from each key
 * to its id, where the id of a key is its position in the sequence. Positions
 * below a lower bound `lo` are unused: the string table numbers from 0, the
 * function and location tables from 1, so their key sequences start with one
 * unused slot. Interning a key already in the map returns its id and changes
 * nothing; interning a new key appends it and gives it the next id.
 */
module Interning {

  /** Every key from position `lo` on has its position as id, and `ids` holds nothing else. */
  ghost predicate Indexed<K>(keys: seq<K>, ids: map<K, int>, lo: int)
  {
    0 <= lo <= |keys| &&
    (forall i :: lo <= i < |keys| ==> keys[i] in ids && ids[keys[i]] == i) &&
    (forall k :: k in ids ==> lo <= ids[k] < |keys| && keys[ids[k]] == k)
  }

  /** The state of a table after one lookup, and the id the lookup returned. */
  datatype Interned<K(==)> = Interned(keys: seq<K>, ids: map<K, int>, id: int)

  /** The id of `k`, interning it first when it is new. */
  function Intern<K(==)>(keys: seq<K>, ids: map<K, int>, lo: int, k: K): (r: Interned<K>)
    requires Indexed(keys, ids, lo)
    ensures Indexed(r.keys, r.ids, lo)
    ensures k in r.ids && r.ids[k] == r.id
    ensures lo <= r.id < |r.keys| && r.keys[r.id] == k
    ensures |r.keys| == if k in ids then |keys| else |keys| + 1
    ensures keys <= r.keys
    ensures forall k' :: k' in ids ==> k' in r.ids && r.ids[k'] == ids[k']
    ensures k !in ids ==> r.id == |keys|
  {
    if k in ids then Interned(keys, ids, ids[k])
    else Interned(keys + [k], ids[k := |keys|], |keys|)
  }

  /**
   * The two outcomes of a lookup, stated separately — a known key returns its
   * id and changes nothing, a new key is appended with the next id — are
   * exactly `Intern`.
   */
  lemma InternByCases<K>(keys: seq<K>, ids: map<K, int>, lo: int, k: K, keys': seq<K>, ids': map<K, int>, id: int)
    requires Indexed(keys, ids, lo)
    requires k in ids ==> id == ids[k] && keys' == keys && ids' == ids
    requires k !in ids ==> id == |keys| && keys' == keys + [k] && ids' == ids[k := id]
    ensures Interned(keys', ids', id) == Intern(keys, ids, lo, k)
  {
  }

  /** Distinct keys of an indexed table never share an id. */
  lemma IdsInjective<K>(keys: seq<K>, ids: map<K, int>, lo: int, k1: K, k2: K)
    requires Indexed(keys, ids, lo)
    requires k1 in ids && k2 in ids && k1 != k2
    ensures ids[k1] != ids[k2]
  {
    assert keys[ids[k1]] == k1 && keys[ids[k2]] == k2;
  }

  /** Interning the same key twice returns the same id and the second lookup changes nothing. */
  lemma InternIdempotent<K>(keys: seq<K>, ids: map<K, int>, lo: int, k: K)
    requires Indexed(keys, ids, lo)
    ensures var r := Intern(keys, ids, lo, k);
            Intern(r.keys, r.ids, lo, k) == r
  {
  }

  /** Interning a list of keys in order: the final table and the id of each key. */
  function InternAll<K(==)>(keys: seq<K>, ids: map<K, int>, lo: int, ks: seq<K>): (r: (seq<K>, map<K, int>, seq<int>))
    requires Indexed(keys, ids, lo)
    ensures Indexed(r.0, r.1, lo) && |r.2| == |ks|
    ensures keys <= r.0 && |r.0| <= |keys| + |ks|
    ensures forall k' :: k' in ids ==> k' in r.1 && r.1[k'] == ids[k']
    decreases |ks|
  {
    if ks == [] then (keys, ids, [])
    else
      var first := Intern(keys, ids, lo, ks[0]);
      var rest := InternAll(first.keys, first.ids, lo, ks[1..]);
      (rest.0, rest.1, [first.id] + rest.2)
  }

  /** One step of `InternAll`: the first key is interned, then the rest. */
  lemma InternAllCons<K>(keys: seq<K>, ids: map<K, int>, lo: int, k: K, ks: seq<K>)
    requires Indexed(keys, ids, lo)
    ensures var first := Intern(keys, ids, lo, k);
            var rest := InternAll(first.keys, first.ids, lo, ks);
            InternAll(keys, ids, lo, [k] + ks) == (rest.0, rest.1, [first.id] + rest.2)
  {
    assert ([k] + ks)[1..] == ks;
  }

  /** Four `Intern` calls in a row, from a table, are `InternAll` of the four keys. */
  lemma InternAllFour<K>(keys: seq<K>, ids: map<K, int>, lo: int, a: K, b: K, c: K, d: K,
                         ia: Interned<K>, ib: Interned<K>, ic: Interned<K>, id: Interned<K>)
    requires Indexed(keys, ids, lo) && ia == Intern(keys, ids, lo, a)
    requires ib == Intern(ia.keys, ia.ids, lo, b) && ic == Intern(ib.keys, ib.ids, lo, c)
    requires id == Intern(ic.keys, ic.ids, lo, d)
    ensures InternAll(keys, ids, lo, [a, b, c, d]) == (id.keys, id.ids, [ia.id, ib.id, ic.id, id.id])
  {
    InternAllCons(ic.keys, ic.ids, lo, d, []);
    InternAllCons(ib.keys, ib.ids, lo, c, [d] + []);
    InternAllCons(ia.keys, ia.ids, lo, b, [c] + ([d] + []));
    InternAllCons(keys, ids, lo, a, [b] + ([c] + ([d] + [])));
    ConsFour(a, b, c, d);
    ConsFour(ia.id, ib.id, ic.id, id.id);
  }

  /** Nested singleton appends are the sequence display. */
  lemma ConsFour<T>(a: T, b: T, c: T, d: T)
    ensures [a] + ([b] + ([c] + ([d] + []))) == [a, b, c, d]
  {
  }

  /** A singleton in front of a four-element display is the five-element display. */
  lemma ConsFive<T>(x: T, a: T, b: T, c: T, d: T)
    ensures [x] + [a, b, c, d] == [x, a, b, c, d]
  {
  }

  /**
   * A table that only grew (its key sequence extends the old one) still
   * gives every old key its old id.
   */
  lemma IdsKept<K>(keys: seq<K>, ids: map<K, int>, keys': seq<K>, ids': map<K, int>, lo: int)
    requires Indexed(keys, ids, lo) && Indexed(keys', ids', lo) && keys <= keys'
    ensures forall k :: k in ids ==> k in ids' && ids'[k] == ids[k]
  {
    forall k | k in ids ensures k in ids' && ids'[k] == ids[k] {
      assert keys'[ids[k]] == keys[ids[k]];
    }
  }

  /** Every key of the list ends up in the table, with the id the list returned for it. */
  lemma {:induction false} InternAllIds<K>(keys: seq<K>, ids: map<K, int>, lo: int, ks: seq<K>)
    requires Indexed(keys, ids, lo)
    ensures var r := InternAll(keys, ids, lo, ks);
            forall i :: 0 <= i < |ks| ==> ks[i] in r.1 && r.1[ks[i]] == r.2[i]
    decreases |ks|
  {
    if ks != [] {
      var r := InternAll(keys, ids, lo, ks);
      var first := Intern(keys, ids, lo, ks[0]);
      var rest := InternAll(first.keys, first.ids, lo, ks[1..]);
      assert r == (rest.0, rest.1, [first.id] + rest.2);
      InternAllIds(first.keys, first.ids, lo, ks[1..]);
      forall i | 0 <= i < |ks| ensures ks[i] in r.1 && r.1[ks[i]] == r.2[i] {
        if i > 0 {
          assert ks[i] == ks[1..][i - 1];
        }
      }
    }
  }

  ghost predicate NoDuplicates<K>(ks: seq<K>)
  {
    forall i, j :: 0 <= i < j < |ks| ==> ks[i] != ks[j]
  }

  /** Feeding N distinct new keys appends exactly those keys, in order. */
  lemma {:induction false} InternAllFreshKeys<K>(keys: seq<K>, ids: map<K, int>, lo: int, ks: seq<K>)
    requires Indexed(keys, ids, lo)
    requires NoDuplicates(ks)
    requires forall i :: 0 <= i < |ks| ==> ks[i] !in ids
    ensures InternAll(keys, ids, lo, ks).0 == keys + ks
    decreases |ks|
  {
    if ks != [] {
      var first := Intern(keys, ids, lo, ks[0]);
      assert InternAll(keys, ids, lo, ks).0 == InternAll(first.keys, first.ids, lo, ks[1..]).0;
      FreshAfterFirst(keys, ids, lo, ks);
      InternAllFreshKeys(first.keys, first.ids, lo, ks[1..]);
      ConsAppend(keys, ks);
    }
  }

  /**
   * Feeding N distinct new keys yields N consecutive ids starting at the
   * table's next id.
   */
  lemma InternAllFreshIds<K>(keys: seq<K>, ids: map<K, int>, lo: int, ks: seq<K>)
    requires Indexed(keys, ids, lo)
    requires NoDuplicates(ks)
    requires forall i :: 0 <= i < |ks| ==> ks[i] !in ids
    ensures var r := InternAll(keys, ids, lo, ks);
            forall i :: 0 <= i < |ks| ==> r.2[i] == |keys| + i
  {
    var r := InternAll(keys, ids, lo, ks);
    InternAllFreshKeys(keys, ids, lo, ks);
    InternAllIds(keys, ids, lo, ks);
    forall i | 0 <= i < |ks| ensures r.2[i] == |keys| + i {
      assert r.0[|keys| + i] == ks[i];
    }
  }

  lemma ConsAppend<K>(keys: seq<K>, ks: seq<K>)
    requires |ks| > 0
    ensures keys + [ks[0]] + ks[1..] == keys + ks
  {
    assert [ks[0]] + ks[1..] == ks;
  }

  /** Once the first of several distinct new keys is interned, the others are still new. */
  lemma FreshAfterFirst<K>(keys: seq<K>, ids: map<K, int>, lo: int, ks: seq<K>)
    requires Indexed(keys, ids, lo)
    requires |ks| > 0 && NoDuplicates(ks)
    requires forall i :: 0 <= i < |ks| ==> ks[i] !in ids
    ensures NoDuplicates(ks[1..])
    ensures var first := Intern(keys, ids, lo, ks[0]);
            forall i :: 0 <= i < |ks[1..]| ==> ks[1..][i] !in first.ids
  {
    var first := Intern(keys, ids, lo, ks[0]);
    assert first.ids.Keys == ids.Keys + {ks[0]};
    forall i | 0 <= i < |ks[1..]| ensures ks[1..][i] !in first.ids {
      assert ks[1..][i] == ks[i + 1];
      assert ks[0] != ks[i + 1];
    }
  }

  /** Interning a list a second time gives every key the id it got the first time and changes nothing. */
  lemma InternAllStable<K>(keys: seq<K>, ids: map<K, int>, lo: int, ks: seq<K>)
    requires Indexed(keys, ids, lo)
    ensures var r := InternAll(keys, ids, lo, ks);
            InternAll(r.0, r.1, lo, ks) == r
  {
    var r := InternAll(keys, ids, lo, ks);
    InternAllIds(keys, ids, lo, ks);
    InternAllKnown(r.0, r.1, lo, ks);
    InternAllIds(r.0, r.1, lo, ks);
    var again := InternAll(r.0, r.1, lo, ks);
    assert again.2 == r.2;
  }

  /** Interning keys that are all in the table leaves the table as it was. */
  lemma {:induction false} InternAllKnown<K>(keys: seq<K>, ids: map<K, int>, lo: int, ks: seq<K>)
    requires Indexed(keys, ids, lo)
    requires forall i :: 0 <= i < |ks| ==> ks[i] in ids
    ensures InternAll(keys, ids, lo, ks).0 == keys && InternAll(keys, ids, lo, ks).1 == ids
    decreases |ks|
  {
    if ks != [] {
      assert Intern(keys, ids, lo, ks[0]) == Interned(keys, ids, ids[ks[0]]);
      InternAllKnown(keys, ids, lo, ks[1..]);
    }
  }
}
