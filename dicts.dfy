/** A Python `dict` from field names to values.  Python dicts remember
    insertion order, so the contents are a sequence of key/value items with
    no key twice; assigning to a present key keeps its position, assigning to
    a new key appends it, and deleting a key closes the gap. */
module Dicts {
  import opened Values

  /** The keys of a serialised channel record: the record fields and the
      `type` discriminator `to_meta` adds, each spelled in Python by `Name`. */
  datatype Key =
    | Field | A | B | Op | Lfunc | Constant | Transform | Range | Domain | Human | Categories | TypeTag

  function Name(k: Key): string {
    match k
    case Field => "field"
    case A => "a"
    case B => "b"
    case Op => "op"
    case Lfunc => "lfunc"
    case Constant => "constant"
    case Transform => "transform"
    case Range => "range"
    case Domain => "domain"
    case Human => "human"
    case Categories => "categories"
    case TypeTag => "type"
  }

  /** Distinct keys are spelled differently in Python, so the discriminator
      `type` is the spelling of `TypeTag` and of no record field. */
  lemma NameInjective(k1: Key, k2: Key)
    ensures Name(k1) == Name(k2) <==> k1 == k2
    ensures Name(k1) == "type" <==> k1 == TypeTag
  {
  }

  type Entries = seq<(Key, Value)>

  /** The keys of `e`, in insertion order (`list(d)`). */
  function Keys(e: Entries): (ks: seq<Key>)
    ensures |ks| == |e|
    ensures forall i {:trigger ks[i]} :: 0 <= i < |e| ==> ks[i] == e[i].0
  {
    if e == [] then [] else [e[0].0] + Keys(e[1..])
  }

  ghost predicate Distinct(ks: seq<Key>) {
    ks == [] || (ks[0] !in ks[1..] && Distinct(ks[1..]))
  }

  /** A sequence whose elements differ pairwise is `Distinct`. */
  lemma {:induction false} DistinctByIndex(ks: seq<Key>)
    requires forall i, j :: 0 <= i < j < |ks| ==> ks[i] != ks[j]
    ensures Distinct(ks)
  {
    if ks != [] {
      DistinctByIndex(ks[1..]);
    }
  }

  /** No key occurs twice: the shape of every Python dict. */
  ghost predicate UniqueKeys(e: Entries) {
    Distinct(Keys(e))
  }

  /** `d.get(k, None)`: the value stored under `k`, or `None` when `k` is absent. */
  function Lookup(e: Entries, k: Key): (v: Value)
    ensures k !in Keys(e) ==> v == Null
    ensures k in Keys(e) ==> (k, v) in e
  {
    if e == [] then Null
    else if e[0].0 == k then e[0].1
    else Lookup(e[1..], k)
  }

  /** `d[k] = v`: afterwards `k` holds `v`, and no other key's value
      changes. */
  function Assign(e: Entries, k: Key, v: Value): (r: Entries)
    ensures Lookup(r, k) == v
    ensures forall k' :: k' != k ==> Lookup(r, k') == Lookup(e, k')
  {
    if e == [] then [(k, v)]
    else if e[0].0 == k then [(k, v)] + e[1..]
    else [e[0]] + Assign(e[1..], k, v)
  }

  lemma KeysCons(x: (Key, Value), rest: Entries)
    ensures Keys([x] + rest) == [x.0] + Keys(rest)
  {
    assert ([x] + rest)[1..] == rest;
  }

  /** `d[k] = v` on a present key overwrites its item in place. */
  lemma {:induction false} AssignPresent(e: Entries, k: Key, v: Value)
    requires k in Keys(e)
    ensures Keys(Assign(e, k, v)) == Keys(e)
  {
    KeysCons(e[0], e[1..]);
    assert [e[0]] + e[1..] == e;
    if e[0].0 == k {
      KeysCons((k, v), e[1..]);
    } else {
      AssignPresent(e[1..], k, v);
      KeysCons(e[0], Assign(e[1..], k, v));
    }
  }

  /** `d[k] = v` on a new key appends an item. */
  lemma {:induction false} AssignAbsent(e: Entries, k: Key, v: Value)
    requires k !in Keys(e)
    ensures Assign(e, k, v) == e + [(k, v)]
  {
    if e != [] {
      KeysCons(e[0], e[1..]);
      assert [e[0]] + e[1..] == e;
      AssignAbsent(e[1..], k, v);
      assert [e[0]] + (e[1..] + [(k, v)]) == e + [(k, v)];
    }
  }

  /** Appending a key not yet present keeps keys distinct. */
  lemma {:induction false} DistinctAppend(ks: seq<Key>, k: Key)
    requires Distinct(ks) && k !in ks
    ensures Distinct(ks + [k])
  {
    if ks != [] {
      assert (ks + [k])[1..] == ks[1..] + [k];
      DistinctAppend(ks[1..], k);
    }
  }

  /** `d[k] = v` keeps the keys of a dict distinct. */
  lemma AssignUnique(e: Entries, k: Key, v: Value)
    requires UniqueKeys(e)
    ensures UniqueKeys(Assign(e, k, v))
  {
    if k in Keys(e) {
      AssignPresent(e, k, v);
    } else {
      AssignAbsent(e, k, v);
      assert Keys(e + [(k, v)]) == Keys(e) + [k];
      DistinctAppend(Keys(e), k);
    }
  }

  /** `del d[k]`: removes the item under `k`; the other items keep their
      values and their order. */
  function Erase(e: Entries, k: Key): (r: Entries)
    ensures UniqueKeys(e) ==> UniqueKeys(r) && k !in Keys(r)
    ensures UniqueKeys(e) ==> forall k' :: k' in Keys(r) <==> k' in Keys(e) && k' != k
    ensures forall k' :: k' != k ==> Lookup(r, k') == Lookup(e, k')
  {
    if e == [] then []
    else if e[0].0 == k then e[1..]
    else [e[0]] + Erase(e[1..], k)
  }

  /** Deleting an absent key changes nothing. */
  lemma {:induction false} EraseAbsent(e: Entries, k: Key)
    requires k !in Keys(e)
    ensures Erase(e, k) == e
  {
    if e != [] {
      KeysCons(e[0], e[1..]);
      assert [e[0]] + e[1..] == e;
      EraseAbsent(e[1..], k);
    }
  }

  /** `del d[k]` closes the gap: the items before and after the removed one
      keep their order. */
  lemma {:induction false} EraseSplit(e: Entries, k: Key) returns (i: nat)
    requires k in Keys(e)
    ensures i < |e| && e[i].0 == k && Erase(e, k) == e[..i] + e[i + 1..]
  {
    KeysCons(e[0], e[1..]);
    assert [e[0]] + e[1..] == e;
    if e[0].0 == k {
      i := 0;
    } else {
      var tail := e[1..];
      var j := EraseSplit(tail, k);
      i := j + 1;
      assert e[..i] == [e[0]] + tail[..j];
      assert e[i + 1..] == tail[j + 1..];
    }
  }

  /** In a dict, the value stored with a key is the one `get` finds. */
  lemma {:induction false} LookupUnique(e: Entries, k: Key, v: Value)
    requires UniqueKeys(e) && (k, v) in e
    ensures Lookup(e, k) == v
  {
    if e[0] != (k, v) {
      assert (k, v) in e[1..];
      assert k in Keys(e[1..]) by {
        var i :| 0 <= i < |e[1..]| && e[1..][i] == (k, v);
        assert Keys(e[1..])[i] == k;
      }
      LookupUnique(e[1..], k, v);
    }
  }

  /** A dict object: `entries` is its contents, which the methods below
      change in place as the corresponding Python operations do. */
  class Dict {
    var entries: Entries

    ghost predicate Valid()
      reads this
    {
      UniqueKeys(entries)
    }

    /** A dict holding the given items, in the given order. */
    constructor (items: Entries)
      requires UniqueKeys(items)
      ensures Valid() && entries == items
    {
      entries := items;
    }

    /** `d.get(key, None)` */
    method Get(key: Key) returns (v: Value)
      requires Valid()
      ensures key !in Keys(entries) ==> v == Null
      ensures key in Keys(entries) ==> (key, v) in entries
    {
      v := Lookup(entries, key);
    }

    /** `key in d` */
    method Contains(key: Key) returns (present: bool)
      ensures present <==> key in Keys(entries)
      ensures present <==> exists i :: 0 <= i < |entries| && entries[i].0 == key
    {
      present := key in Keys(entries);
      assert forall i :: 0 <= i < |entries| ==> Keys(entries)[i] == entries[i].0;
    }

    /** `d[key] = v` */
    method Set(key: Key, v: Value)
      requires Valid()
      modifies this
      ensures Valid()
      ensures entries == Assign(old(entries), key, v)
    {
      AssignUnique(entries, key, v);
      entries := Assign(entries, key, v);
    }

    /** `del d[key]`; Python raises `KeyError` for an absent key, and every
        caller here tests for the key first. */
    method Delete(key: Key)
      requires Valid() && key in Keys(entries)
      modifies this
      ensures Valid()
      ensures entries == Erase(old(entries), key)
    {
      entries := Erase(entries, key);
    }
  }
}
