/** A BTreeMap keyed by numeric ids: the entries in strictly ascending key order. */
module OrderedMap {

  datatype Entry<V> = Entry(key: nat, value: V)

  ghost predicate Sorted<V>(m: seq<Entry<V>>) {
    forall i, j :: 0 <= i < j < |m| ==> m[i].key < m[j].key
  }

  predicate Has<V>(m: seq<Entry<V>>, key: nat) {
    exists i :: 0 <= i < |m| && m[i].key == key
  }

  function Get<V>(m: seq<Entry<V>>, key: nat): (v: V)
    requires Has(m, key)
    ensures Entry(key, v) in m
  {
    if m[0].key == key then m[0].value else Get(m[1..], key)
  }

  function Insert<V>(m: seq<Entry<V>>, key: nat, value: V): seq<Entry<V>> {
    if m == [] || key < m[0].key then [Entry(key, value)] + m
    else if m[0].key == key then [Entry(key, value)] + m[1..]
    else [m[0]] + Insert(m[1..], key, value)
  }

  function Remove<V>(m: seq<Entry<V>>, key: nat): seq<Entry<V>> {
    Retain(m, (e: Entry<V>) => e.key != key)
  }

  /** BTreeMap::retain. */
  function Retain<V>(m: seq<Entry<V>>, keep: Entry<V> -> bool): seq<Entry<V>> {
    if m == [] then []
    else if keep(m[0]) then [m[0]] + Retain(m[1..], keep)
    else Retain(m[1..], keep)
  }

  function KeySeq<V>(m: seq<Entry<V>>): (ks: seq<nat>)
    ensures |ks| == |m| && forall i :: 0 <= i < |m| ==> ks[i] == m[i].key
  {
    seq(|m|, i requires 0 <= i < |m| => m[i].key)
  }

  ghost function Keys<V>(m: seq<Entry<V>>): set<nat> {
    set i | 0 <= i < |m| :: m[i].key
  }

  lemma HasIsKey<V(!new)>(m: seq<Entry<V>>, key: nat)
    ensures Has(m, key) <==> key in Keys(m)
  {
  }

  lemma SortedCons<V(!new)>(head: Entry<V>, tail: seq<Entry<V>>)
    requires Sorted(tail) && forall e :: e in tail ==> head.key < e.key
    ensures Sorted([head] + tail)
  {
    forall i, j | 0 <= i < j < |tail| + 1
      ensures ([head] + tail)[i].key < ([head] + tail)[j].key
    {
      assert tail[j - 1] in tail;
    }
  }

  lemma HeadIsLeast<V(!new)>(m: seq<Entry<V>>)
    requires Sorted(m) && m != []
    ensures forall e :: e in m[1..] ==> m[0].key < e.key
  {
    forall e | e in m[1..]
      ensures m[0].key < e.key
    {
      var i :| 0 <= i < |m| - 1 && m[1..][i] == e;
      assert m[i + 1] == e;
    }
  }

  lemma {:induction false} InsertEntries<V(!new)>(m: seq<Entry<V>>, key: nat, value: V)
    requires Sorted(m)
    ensures Sorted(Insert(m, key, value))
    ensures forall e :: e in Insert(m, key, value) <==> e == Entry(key, value) || (e in m && e.key != key)
  {
    if m != [] && m[0].key <= key {
      if m[0].key < key {
        InsertEntries(m[1..], key, value);
        HeadIsLeast(m);
        SortedCons(m[0], Insert(m[1..], key, value));
      }
      assert m == [m[0]] + m[1..];
    }
  }

  lemma {:induction false} RetainEntries<V(!new)>(m: seq<Entry<V>>, keep: Entry<V> -> bool)
    requires Sorted(m)
    ensures Sorted(Retain(m, keep))
    ensures forall e :: e in Retain(m, keep) <==> e in m && keep(e)
  {
    if m != [] {
      RetainEntries(m[1..], keep);
      if keep(m[0]) {
        HeadIsLeast(m);
        forall e | e in Retain(m[1..], keep)
          ensures m[0].key < e.key
        {
          assert e in m[1..];
        }
        SortedCons(m[0], Retain(m[1..], keep));
      }
      assert m == [m[0]] + m[1..];
    }
  }

  lemma RemoveEntries<V(!new)>(m: seq<Entry<V>>, key: nat)
    requires Sorted(m)
    ensures Sorted(Remove(m, key))
    ensures forall e :: e in Remove(m, key) <==> e in m && e.key != key
  {
    RetainEntries(m, (e: Entry<V>) => e.key != key);
  }

  /** Keys are unique, so an entry is determined by its key. */
  lemma SameKeySameEntry<V(!new)>(m: seq<Entry<V>>, a: Entry<V>, b: Entry<V>)
    requires Sorted(m) && a in m && b in m && a.key == b.key
    ensures a == b
  {
  }

  /** A sorted map has as many entries as keys. */
  lemma {:induction false} KeysCount<V(!new)>(m: seq<Entry<V>>)
    requires Sorted(m)
    ensures |Keys(m)| == |m|
  {
    if m != [] {
      var rest := m[..|m| - 1];
      KeysCount(rest);
      assert Keys(m) == Keys(rest) + {m[|m| - 1].key};
    }
  }

  lemma InKeys<V(!new)>(m: seq<Entry<V>>)
    ensures forall k :: k in Keys(m) <==> exists e :: e in m && e.key == k
  {
    forall k | k in Keys(m)
      ensures exists e :: e in m && e.key == k
    {
      var i :| 0 <= i < |m| && m[i].key == k;
      assert m[i] in m;
    }
  }

  lemma InsertKeys<V(!new)>(m: seq<Entry<V>>, key: nat, value: V)
    requires Sorted(m)
    ensures Keys(Insert(m, key, value)) == Keys(m) + {key}
  {
    var m' := Insert(m, key, value);
    InsertEntries(m, key, value);
    InKeys(m);
    InKeys(m');
    assert Entry(key, value) in m';
    forall k | k in Keys(m) && k != key
      ensures k in Keys(m')
    {
      var e :| e in m && e.key == k;
      assert e in m';
    }
  }

  lemma RemoveKeys<V(!new)>(m: seq<Entry<V>>, key: nat)
    requires Sorted(m)
    ensures Keys(Remove(m, key)) == Keys(m) - {key}
  {
    var m' := Remove(m, key);
    RemoveEntries(m, key);
    InKeys(m);
    InKeys(m');
    forall k | k in Keys(m) && k != key
      ensures k in Keys(m')
    {
      var e :| e in m && e.key == k;
      assert e in m';
    }
  }

  lemma RetainKeys<V(!new)>(m: seq<Entry<V>>, keep: Entry<V> -> bool)
    requires Sorted(m)
    ensures Keys(Retain(m, keep)) <= Keys(m)
  {
    RetainEntries(m, keep);
    InKeys(m);
    InKeys(Retain(m, keep));
  }

  lemma {:induction false} SubsetSize(a: set<nat>, b: set<nat>)
    requires a <= b
    ensures |a| <= |b|
  {
    if a != {} {
      var x :| x in a;
      SubsetSize(a - {x}, b - {x});
    }
  }

  lemma {:induction false} RemoveInserted<V(!new)>(m: seq<Entry<V>>, key: nat, value: V)
    requires Sorted(m)
    ensures Remove(Insert(m, key, value), key) == Remove(m, key)
  {
    var m' := Insert(m, key, value);
    if m != [] && m[0].key < key {
      RemoveInserted(m[1..], key, value);
      assert m'[1..] == Insert(m[1..], key, value);
    } else if m != [] && m[0].key == key {
      assert m'[1..] == m[1..];
    } else {
      assert m'[1..] == m;
    }
  }
}
