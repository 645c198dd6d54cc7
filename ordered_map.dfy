/**
  A JavaScript `Map` with string keys: the current binding of every key,
  and the keys in the order they were first inserted, which is the order
  `Map.prototype.keys` yields them. Setting a key that is already present
  replaces its value and leaves its position alone.
 */
module OrderedMap {
  import opened Common

  datatype OMap<V> = OMap(bindings: map<string, V>, order: seq<string>)

  predicate NoDuplicates(s: seq<string>) {
    forall i, j :: 0 <= i < j < |s| ==> s[i] != s[j]
  }

  /** The order lists every bound key exactly once. */
  ghost predicate Valid<V>(m: OMap<V>) {
    NoDuplicates(m.order) && (forall k :: k in m.bindings <==> k in m.order)
  }

  function Empty<V>(): (m: OMap<V>)
    ensures Valid(m) && m.order == [] && m.bindings == map[]
  {
    OMap(map[], [])
  }

  /** `map.set(k, v)`. */
  function Set<V>(m: OMap<V>, k: string, v: V): (r: OMap<V>)
    requires Valid(m)
    ensures Valid(r)
    ensures r.bindings.Keys == m.bindings.Keys + {k}
  {
    OMap(m.bindings[k := v], if k in m.bindings then m.order else m.order + [k])
  }

  /** `map.get(k)`; `None` stands for `undefined`. */
  function Get<V>(m: OMap<V>, k: string): (r: Option<V>)
    ensures r.Some? <==> k in m.bindings
    ensures r.Some? ==> r.value == m.bindings[k]
  {
    if k in m.bindings then Some(m.bindings[k]) else None
  }

  /** `Array.from(map.keys())`. */
  function Keys<V>(m: OMap<V>): (ks: seq<string>)
    requires Valid(m)
    ensures NoDuplicates(ks)
    ensures forall k :: k in ks <==> k in m.bindings
  {
    m.order
  }

  /** Reading a key just set gives the value set. */
  lemma GetAfterSet<V>(m: OMap<V>, k: string, v: V)
    requires Valid(m)
    ensures Get(Set(m, k, v), k) == Some(v)
  {
  }

  /** Setting one key leaves every other key's binding as it was. */
  lemma SetKeepsOthers<V>(m: OMap<V>, k: string, v: V, other: string)
    requires Valid(m) && other != k
    ensures Get(Set(m, k, v), other) == Get(m, other)
  {
  }

  /** A second `set` of the same key wins, and leaves the key where the first put it. */
  lemma SetOverwrites<V>(m: OMap<V>, k: string, v1: V, v2: V)
    requires Valid(m)
    ensures Set(Set(m, k, v1), k, v2) == Set(m, k, v2)
  {
  }

  /** Setting a present key does not move it; setting a new key appends it. */
  lemma KeysAfterSet<V>(m: OMap<V>, k: string, v: V)
    requires Valid(m)
    ensures k in m.bindings ==> Keys(Set(m, k, v)) == Keys(m)
    ensures k !in m.bindings ==> Keys(Set(m, k, v)) == Keys(m) + [k]
  {
  }

  /** The map after inserting `entries` one after another, as a sequence of `set` calls does. */
  function SetAll<V>(m: OMap<V>, entries: seq<(string, V)>): (r: OMap<V>)
    requires Valid(m)
    ensures Valid(r)
    decreases |entries|
  {
    if entries == [] then m
    else Set(SetAll(m, entries[..|entries| - 1]), entries[|entries| - 1].0, entries[|entries| - 1].1)
  }

  function KeysOf<V>(entries: seq<(string, V)>): (ks: seq<string>)
    ensures |ks| == |entries|
    ensures forall i :: 0 <= i < |entries| ==> ks[i] == entries[i].0
  {
    seq(|entries|, i requires 0 <= i < |entries| => entries[i].0)
  }

  /** Position of the first occurrence of `k` in `s`. */
  function FirstIndex(s: seq<string>, k: string): (i: nat)
    requires k in s
    ensures i < |s| && s[i] == k
    ensures forall j :: 0 <= j < i ==> s[j] != k
  {
    if s[0] == k then 0 else 1 + FirstIndex(s[1..], k)
  }

  /**
    `r` lists the distinct elements of `ks`, each once, ordered by where each
    first occurs in `ks`.
   */
  ghost predicate FirstOccurrenceOrder(r: seq<string>, ks: seq<string>) {
    && NoDuplicates(r)
    && (forall k :: k in r <==> k in ks)
    && (forall i, j :: 0 <= i < j < |r| && r[i] in ks && r[j] in ks ==> FirstIndex(ks, r[i]) < FirstIndex(ks, r[j]))
  }

  lemma FirstIndexAppend(s: seq<string>, k: string, x: string)
    requires x in s
    ensures x in s + [k] && FirstIndex(s + [k], x) == FirstIndex(s, x)
  {
    var i := FirstIndex(s, x);
    assert (s + [k])[i] == x;
    var j := FirstIndex(s + [k], x);
    assert s[j] == (s + [k])[j];
  }

  /** Inserting a key already seen leaves the first-occurrence order as it was. */
  lemma OrderAfterRepeat(order: seq<string>, ks: seq<string>, k: string)
    requires FirstOccurrenceOrder(order, ks) && k in ks
    ensures FirstOccurrenceOrder(order, ks + [k])
  {
    forall x | x in ks
      ensures x in ks + [k] && FirstIndex(ks + [k], x) == FirstIndex(ks, x)
    {
      FirstIndexAppend(ks, k, x);
    }
  }

  /** Inserting a new key puts it after every key seen before. */
  lemma OrderAfterNew(order: seq<string>, ks: seq<string>, k: string)
    requires FirstOccurrenceOrder(order, ks) && k !in ks
    ensures FirstOccurrenceOrder(order + [k], ks + [k])
  {
    var ks', r := ks + [k], order + [k];
    forall x | x in ks
      ensures x in ks' && FirstIndex(ks', x) == FirstIndex(ks, x)
    {
      FirstIndexAppend(ks, k, x);
    }
    assert ks'[|ks|] == k;
    forall i, j | 0 <= i < j < |r| && r[i] in ks' && r[j] in ks'
      ensures FirstIndex(ks', r[i]) < FirstIndex(ks', r[j])
    {
      if j == |r| - 1 {
        assert r[i] == order[i] && r[i] in ks;
      } else {
        assert r[i] == order[i] && r[j] == order[j];
      }
    }
  }

  /**
    Starting from an empty map, a run of `set` calls lists each key exactly
    once, in the order of its first insertion; later insertions of a key do
    not move it.
   */
  lemma {:induction false} KeysOfSetAll<V>(entries: seq<(string, V)>)
    ensures FirstOccurrenceOrder(Keys(SetAll(Empty(), entries)), KeysOf(entries))
    decreases |entries|
  {
    if entries != [] {
      var prefix := entries[..|entries| - 1];
      var k := entries[|entries| - 1].0;
      var before := SetAll(Empty(), prefix);
      KeysOfSetAll(prefix);
      assert KeysOf(entries) == KeysOf(prefix) + [k];
      if k in before.bindings {
        OrderAfterRepeat(before.order, KeysOf(prefix), k);
      } else {
        OrderAfterNew(before.order, KeysOf(prefix), k);
      }
    }
  }

  /** The value of the last entry for `k`, if any. */
  function LastValue<V>(entries: seq<(string, V)>, k: string): Option<V>
    decreases |entries|
  {
    if entries == [] then None
    else if entries[|entries| - 1].0 == k then Some(entries[|entries| - 1].1)
    else LastValue(entries[..|entries| - 1], k)
  }

  /** `LastValue` finds a value exactly for the keys that occur, and it is the value of their last entry. */
  lemma {:induction false} LastValueIsLast<V>(entries: seq<(string, V)>, k: string)
    ensures LastValue(entries, k).Some? <==> exists i :: 0 <= i < |entries| && entries[i].0 == k
    ensures LastValue(entries, k).Some? ==>
      exists i :: 0 <= i < |entries| && entries[i] == (k, LastValue(entries, k).value)
                  && forall j :: i < j < |entries| ==> entries[j].0 != k
    decreases |entries|
  {
    if entries == [] {
      return;
    }
    var last := |entries| - 1;
    if entries[last].0 == k {
      assert entries[last] == (k, LastValue(entries, k).value);
      return;
    }
    var p := entries[..last];
    LastValueIsLast(p, k);
    if LastValue(p, k).Some? {
      var i :| 0 <= i < |p| && p[i] == (k, LastValue(p, k).value) && forall j :: i < j < |p| ==> p[j].0 != k;
      assert entries[i] == p[i];
      forall j | i < j < |entries|
        ensures entries[j].0 != k
      {
        if j < last {
          assert entries[j] == p[j];
        }
      }
    }
    if exists i :: 0 <= i < |entries| && entries[i].0 == k {
      var i :| 0 <= i < |entries| && entries[i].0 == k;
      assert p[i] == entries[i];
    }
  }

  /** After a run of `set` calls, each key holds the value of its last insertion. */
  lemma {:induction false} GetOfSetAll<V>(entries: seq<(string, V)>, k: string)
    ensures Get(SetAll(Empty(), entries), k) == LastValue(entries, k)
    decreases |entries|
  {
    if entries != [] {
      GetOfSetAll(entries[..|entries| - 1], k);
    }
  }
}
