/** Channel records and their serialisation (`BaseChannel.to_dict`,
    `to_meta`).  Every field holds a `Value`: the record classes do not
    check their annotations at run time, and what `to_dict` does with a
    field depends on whether it actually holds a tuple, a list or `None`. */
module Channels {
  import opened Values
  import opened Dicts

  /** One constructor per record class, `BaseChannel` included, with its
      fields in declaration order (inherited fields first, as dataclasses
      order them) and its defaults. */
  datatype Channel =
    | BaseChannel(field: Value)
    | ConditionalChannel(field: Value, a: Value, b: Value, op: Value, human: Value := Null)
    | LambdaChannel(field: Value, lfunc: Value, range: Value, domain: Value, human: Value := Null)
    | ConstantBool(field: Value, constant: Value := Str("boolean"), human: Value := Null)
    | ConstantNumber(field: Value, constant: Value := Str("number"), human: Value := Null)
    | ConstantColor(field: Value, constant: Value := Str("blue"), human: Value := Null)
    | BasicChannel(field: Value, transform: Value := Str("literal"), range: Value := Null,
                   domain: Value := Null, human: Value := Null)
    | BasicBooleanChannel(field: Value, transform: Value := Str("literal"),
                          range: Value := Tuple([Num(0), Num(1)]),
                          domain: Value := Tuple([Num(0), Num(1)]), human: Value := Null)
    | CategoricalChannel(field: Value, human: Value := Null)
    | BasicColorChannel(field: Value, transform: Value := Str("literal"), range: Value := Null,
                        domain: Value := Null, human: Value := Null)
    | CategoricalColorChannel(field: Value, human: Value := Null, range: Value := Null,
                              domain: Value := Null, categories: Value := Null)

  /** `self.__class__.__name__` */
  function ClassName(c: Channel): string {
    match c
    case BaseChannel(_) => "BaseChannel"
    case ConditionalChannel(_, _, _, _, _) => "ConditionalChannel"
    case LambdaChannel(_, _, _, _, _) => "LambdaChannel"
    case ConstantBool(_, _, _) => "ConstantBool"
    case ConstantNumber(_, _, _) => "ConstantNumber"
    case ConstantColor(_, _, _) => "ConstantColor"
    case BasicChannel(_, _, _, _, _) => "BasicChannel"
    case BasicBooleanChannel(_, _, _, _, _) => "BasicBooleanChannel"
    case CategoricalChannel(_, _) => "CategoricalChannel"
    case BasicColorChannel(_, _, _, _, _) => "BasicColorChannel"
    case CategoricalColorChannel(_, _, _, _, _) => "CategoricalColorChannel"
  }

  /** `c` and `d` are records of the same class. */
  predicate SameClass(c: Channel, d: Channel) {
    match c
    case BaseChannel(_) => d.BaseChannel?
    case ConditionalChannel(_, _, _, _, _) => d.ConditionalChannel?
    case LambdaChannel(_, _, _, _, _) => d.LambdaChannel?
    case ConstantBool(_, _, _) => d.ConstantBool?
    case ConstantNumber(_, _, _) => d.ConstantNumber?
    case ConstantColor(_, _, _) => d.ConstantColor?
    case BasicChannel(_, _, _, _, _) => d.BasicChannel?
    case BasicBooleanChannel(_, _, _, _, _) => d.BasicBooleanChannel?
    case CategoricalChannel(_, _) => d.CategoricalChannel?
    case BasicColorChannel(_, _, _, _, _) => d.BasicColorChannel?
    case CategoricalColorChannel(_, _, _, _, _) => d.CategoricalColorChannel?
  }

  /** The class name tells the record classes apart, so the `type` item of
      `to_meta` identifies the record's class. */
  lemma ClassNameIdentifies(c: Channel, d: Channel)
    ensures ClassName(c) == ClassName(d) <==> SameClass(c, d)
  {
  }

  /** `asdict(self)`: one item per field, in declaration order. */
  function AsDict(c: Channel): (e: Entries)
    ensures !c.BaseChannel? ==> (Human, c.human) in e
    ensures c.CategoricalColorChannel? ==> (Categories, c.categories) in e
  {
    match c
    case BaseChannel(field) =>
      [(Field, field)]
    case ConditionalChannel(field, a, b, op, human) =>
      [(Field, field), (A, a), (B, b), (Op, op), (Human, human)]
    case LambdaChannel(field, lfunc, range, domain, human) =>
      [(Field, field), (Lfunc, lfunc), (Range, range), (Domain, domain), (Human, human)]
    case ConstantBool(field, constant, human) =>
      [(Field, field), (Constant, constant), (Human, human)]
    case ConstantNumber(field, constant, human) =>
      [(Field, field), (Constant, constant), (Human, human)]
    case ConstantColor(field, constant, human) =>
      [(Field, field), (Constant, constant), (Human, human)]
    case BasicChannel(field, transform, range, domain, human) =>
      [(Field, field), (Transform, transform), (Range, range), (Domain, domain), (Human, human)]
    case BasicBooleanChannel(field, transform, range, domain, human) =>
      [(Field, field), (Transform, transform), (Range, range), (Domain, domain), (Human, human)]
    case CategoricalChannel(field, human) =>
      [(Field, field), (Human, human)]
    case BasicColorChannel(field, transform, range, domain, human) =>
      [(Field, field), (Transform, transform), (Range, range), (Domain, domain), (Human, human)]
    case CategoricalColorChannel(field, human, range, domain, categories) =>
      [(Field, field), (Human, human), (Range, range), (Domain, domain), (Categories, categories)]
  }

  /** Every record's field names are distinct; every record but the bare
      `BaseChannel` has a `human` label, only `CategoricalColorChannel` has
      `categories`, and none has a field named `type`. */
  lemma AsDictShape(c: Channel)
    ensures UniqueKeys(AsDict(c))
    ensures Human in Keys(AsDict(c)) <==> !c.BaseChannel?
    ensures !c.BaseChannel? ==> Lookup(AsDict(c), Human) == c.human
    ensures Categories in Keys(AsDict(c)) <==> c.CategoricalColorChannel?
    ensures c.CategoricalColorChannel? ==> Lookup(AsDict(c), Categories) == c.categories
    ensures TypeTag !in Keys(AsDict(c))
  {
    var e := AsDict(c);
    KeyTable(e, AsDictKeys(c));
    if !c.BaseChannel? {
      LookupUnique(e, Human, c.human);
    }
    if c.CategoricalColorChannel? {
      LookupUnique(e, Categories, c.categories);
    }
  }

  function AsDictKeys(c: Channel): (ks: seq<Key>)
    ensures forall i, j :: 0 <= i < j < |ks| ==> ks[i] != ks[j]
    ensures Human in ks <==> !c.BaseChannel?
    ensures TypeTag !in ks
    ensures Categories in ks <==> c.CategoricalColorChannel?
    ensures |ks| == |AsDict(c)| && forall i :: 0 <= i < |ks| ==> AsDict(c)[i].0 == ks[i]
  {
    match c
    case BaseChannel(_) => [Field]
    case ConditionalChannel(_, _, _, _, _) => [Field, A, B, Op, Human]
    case LambdaChannel(_, _, _, _, _) => [Field, Lfunc, Range, Domain, Human]
    case ConstantBool(_, _, _) => [Field, Constant, Human]
    case ConstantNumber(_, _, _) => [Field, Constant, Human]
    case ConstantColor(_, _, _) => [Field, Constant, Human]
    case BasicChannel(_, _, _, _, _) => [Field, Transform, Range, Domain, Human]
    case BasicBooleanChannel(_, _, _, _, _) => [Field, Transform, Range, Domain, Human]
    case CategoricalChannel(_, _) => [Field, Human]
    case BasicColorChannel(_, _, _, _, _) => [Field, Transform, Range, Domain, Human]
    case CategoricalColorChannel(_, _, _, _, _) => [Field, Human, Range, Domain, Categories]
  }

  /** Items whose keys, in order, are the pairwise distinct `ks`. */
  lemma KeyTable(e: Entries, ks: seq<Key>)
    requires |e| == |ks| && forall i :: 0 <= i < |e| ==> e[i].0 == ks[i]
    requires forall i, j :: 0 <= i < j < |ks| ==> ks[i] != ks[j]
    ensures Keys(e) == ks && UniqueKeys(e)
  {
    DistinctByIndex(ks);
  }

  /** The keys whose tuple values `to_dict` turns into lists. */
  const ListKeys: set<Key> := {Range, Domain, Categories}

  /** The value `to_dict` leaves under key `k` for a field holding `v`. */
  function Exported(k: Key, v: Value): Value {
    if k in ListKeys then AsList(v) else v
  }

  /** The items `to_dict` deletes: a `None` label or a `None` category list. */
  predicate Dropped(k: Key, v: Value) {
    (k == Human || k == Categories) && v == Null
  }

  /** The serialised form, item by item: each field in order, left out when
      `Dropped`, otherwise with its `Exported` value. */
  function Normalize(e: Entries): (r: Entries)
    ensures |r| <= |e|
    ensures forall k :: k in Keys(r) ==> k in Keys(e)
  {
    if e == [] then []
    else
      KeysCons(e[0], e[1..]);
      assert [e[0]] + e[1..] == e;
      if Dropped(e[0].0, e[0].1) then Normalize(e[1..])
      else
        KeysCons((e[0].0, Exported(e[0].0, e[0].1)), Normalize(e[1..]));
        [(e[0].0, Exported(e[0].0, e[0].1))] + Normalize(e[1..])
  }

  /** What `to_dict` returns for the record `c`. */
  function DictOf(c: Channel): (r: Entries)
    ensures forall k :: k in Keys(r) ==> k in Keys(AsDict(c))
    ensures TypeTag !in Keys(r)
  {
    AsDictShape(c);
    Normalize(AsDict(c))
  }

  /** What `to_meta` returns for the record `c`: `d['type'] = name` on the
      result of `to_dict`, which appends a single item. */
  function MetaOf(c: Channel): (r: Entries)
    ensures r == DictOf(c) + [(TypeTag, Str(ClassName(c)))]
    ensures Lookup(r, TypeTag) == Str(ClassName(c))
  {
    AsDictShape(c);
    NormalizeLookup(AsDict(c), TypeTag);
    AssignAbsent(DictOf(c), TypeTag, Str(ClassName(c)));
    Assign(DictOf(c), TypeTag, Str(ClassName(c)))
  }

  /** The dict after `export_tuple_as_list(d, key)`: the item under `key`,
      if any, holds `AsList` of its value; every other item is as it was. */
  function ListifyAt(e: Entries, key: Key): (r: Entries)
    ensures Keys(r) == Keys(e)
    ensures Lookup(r, key) == AsList(Lookup(e, key))
    ensures forall k :: k != key ==> Lookup(r, k) == Lookup(e, k)
  {
    if e == [] then []
    else [(e[0].0, if e[0].0 == key then AsList(e[0].1) else e[0].1)] + ListifyAt(e[1..], key)
  }

  /** `export_tuple_as_list`: rewrites a tuple under `key` to the list of its
      elements, in place, and returns the same dict. */
  method ExportTupleAsList(d: Dict, key: Key) returns (r: Dict)
    requires d.Valid()
    modifies d
    ensures r == d && d.Valid()
    ensures d.entries == ListifyAt(old(d.entries), key)
  {
    ListifyByAssign(d.entries, key);
    var val := d.Get(key);
    if key in Keys(d.entries) {
      LookupUnique(d.entries, key, val);
    }
    if val != Null {
      if val.Tuple? {
        d.Set(key, List(val.elems));
      }
    }
    r := d;
  }

  /** `to_dict` */
  method ToDict(c: Channel) returns (d: Dict)
    ensures fresh(d) && d.Valid()
    ensures d.entries == DictOf(c)
  {
    AsDictShape(c);
    d := new Dict(AsDict(c));
    d := ExportTupleAsList(d, Range);
    d := ExportTupleAsList(d, Domain);
    d := ExportTupleAsList(d, Categories);
    DeleteIfNone(d, Human);
    DeleteIfNone(d, Categories);
    ToDictSteps(AsDict(c));
  }

  /** `if key in d and d[key] is None: del d[key]` */
  method DeleteIfNone(d: Dict, key: Key)
    requires d.Valid()
    modifies d
    ensures d.Valid()
    ensures d.entries == DropIfNull(old(d.entries), key)
  {
    var present := d.Contains(key);
    if present {
      var val := d.Get(key);
      LookupUnique(d.entries, key, val);
      if val == Null {
        d.Delete(key);
      }
    }
  }

  /** `to_meta` */
  method ToMeta(c: Channel) returns (d: Dict)
    ensures fresh(d) && d.Valid()
    ensures d.entries == MetaOf(c)
  {
    d := ToDict(c);
    var name := ClassName(c);
    d.Set(TypeTag, Str(name));
  }

  /** The items `if k in d and d[k] is None: del d[k]` leaves. */
  function DropIfNull(e: Entries, k: Key): Entries {
    if k in Keys(e) && Lookup(e, k) == Null then Erase(e, k) else e
  }

  // Proof of `ToDict` against `Normalize`.

  /** Rewriting an absent key changes nothing. */
  lemma {:induction false} ListifyAbsent(e: Entries, key: Key)
    requires key !in Keys(e)
    ensures ListifyAt(e, key) == e
  {
    if e != [] {
      ListifyAbsent(e[1..], key);
    }
  }

  /** Python's get-then-assign in `export_tuple_as_list` rewrites exactly the
      item `ListifyAt` describes. */
  lemma {:induction false} ListifyByAssign(e: Entries, key: Key)
    requires UniqueKeys(e)
    ensures ListifyAt(e, key) ==
            if Lookup(e, key).Tuple? then Assign(e, key, List(Lookup(e, key).elems)) else e
  {
    if e != [] {
      if e[0].0 == key {
        ListifyAbsent(e[1..], key);
      } else {
        ListifyByAssign(e[1..], key);
      }
    }
  }

  /** Every item with its `Exported` value. */
  function ExportAll(e: Entries): (r: Entries) {
    if e == [] then [] else [(e[0].0, Exported(e[0].0, e[0].1))] + ExportAll(e[1..])
  }

  /** The items of `e`, without those holding `None` under `k`. */
  function FilterNull(e: Entries, k: Key): Entries {
    if e == [] then []
    else if e[0].0 == k && e[0].1 == Null then FilterNull(e[1..], k)
    else [e[0]] + FilterNull(e[1..], k)
  }

  lemma {:induction false} ListifyThreeIsExportAll(e: Entries)
    ensures ListifyAt(ListifyAt(ListifyAt(e, Range), Domain), Categories) == ExportAll(e)
  {
    if e != [] {
      ListifyThreeIsExportAll(e[1..]);
    }
  }

  lemma {:induction false} DropIfNullIsFilter(e: Entries, k: Key)
    requires UniqueKeys(e)
    ensures DropIfNull(e, k) == FilterNull(e, k)
  {
    if e != [] {
      if e[0].0 == k {
        FilterNullAbsent(e[1..], k);
      } else {
        DropIfNullIsFilter(e[1..], k);
      }
    }
  }

  lemma {:induction false} FilterNullAbsent(e: Entries, k: Key)
    requires k !in Keys(e)
    ensures FilterNull(e, k) == e
  {
    if e != [] {
      FilterNullAbsent(e[1..], k);
    }
  }

  lemma {:induction false} FiltersAreNormalize(e: Entries)
    ensures FilterNull(FilterNull(ExportAll(e), Human), Categories) == Normalize(e)
  {
    if e != [] {
      FiltersAreNormalize(e[1..]);
    }
  }

  /** The steps of `to_dict`, run on a dict, give `Normalize` of its items. */
  lemma ToDictSteps(e: Entries)
    requires UniqueKeys(e)
    ensures DropIfNull(DropIfNull(ListifyAt(ListifyAt(ListifyAt(e, Range), Domain), Categories),
                                  Human), Categories) == Normalize(e)
  {
    var x := ListifyAt(ListifyAt(ListifyAt(e, Range), Domain), Categories);
    assert Keys(x) == Keys(e);
    ListifyThreeIsExportAll(e);
    DropIfNullIsFilter(x, Human);
    DropIfNullIsFilter(DropIfNull(x, Human), Categories);
    FiltersAreNormalize(e);
  }

  // What the serialised form holds.

  ghost predicate IsSubsequence(xs: seq<Key>, ys: seq<Key>)
    decreases |ys|
  {
    if ys == [] then xs == []
    else (xs != [] && xs[0] == ys[0] && IsSubsequence(xs[1..], ys[1..])) || IsSubsequence(xs, ys[1..])
  }

  /** `Normalize` keeps exactly the items that are not `Dropped`, with their
      `Exported` values, in their original order. */
  lemma {:induction false} NormalizeLookup(e: Entries, k: Key)
    requires UniqueKeys(e)
    ensures k in Keys(Normalize(e)) <==> k in Keys(e) && !Dropped(k, Lookup(e, k))
    ensures Lookup(Normalize(e), k) == Exported(k, Lookup(e, k))
  {
    if e != [] {
      NormalizeLookup(e[1..], k);
    }
  }

  lemma {:induction false} NormalizeKeepsOrder(e: Entries)
    ensures IsSubsequence(Keys(Normalize(e)), Keys(e))
  {
    if e != [] {
      NormalizeKeepsOrder(e[1..]);
    }
  }

  /** After `to_dict`, no range, domain or category list is a tuple; each
      holds the same elements it held in the record. */
  lemma ToDictHasNoTuples(c: Channel)
    ensures forall k :: k in ListKeys ==> !Lookup(DictOf(c), k).Tuple?
    ensures forall k :: k in ListKeys ==> Lookup(DictOf(c), k) == AsList(Lookup(AsDict(c), k))
  {
    AsDictShape(c);
    forall k | k in ListKeys
      ensures !Lookup(DictOf(c), k).Tuple?
      ensures Lookup(DictOf(c), k) == AsList(Lookup(AsDict(c), k))
    {
      NormalizeLookup(AsDict(c), k);
    }
  }

  /** `to_dict` drops `human` exactly when the record's label is `None`. */
  lemma ToDictOmitsHuman(c: Channel)
    ensures Human in Keys(DictOf(c)) <==> !c.BaseChannel? && c.human != Null
  {
    AsDictShape(c);
    NormalizeLookup(AsDict(c), Human);
  }

  /** `to_dict` drops `categories` exactly when the record has a category
      list and it is `None`; no other record has the key at all. */
  lemma ToDictOmitsCategories(c: Channel)
    ensures Categories in Keys(DictOf(c)) <==> c.CategoricalColorChannel? && c.categories != Null
  {
    AsDictShape(c);
    NormalizeLookup(AsDict(c), Categories);
    if c.CategoricalColorChannel? {
      assert Lookup(AsDict(c), Categories) == c.categories;
    }
  }

  /** Every other field stays, `None` or not, with its value (a list in place
      of a tuple under the list keys), and the fields keep their declaration
      order. */
  lemma ToDictKeepsFields(c: Channel)
    ensures forall k :: k in Keys(AsDict(c)) && k != Human && k != Categories ==> k in Keys(DictOf(c))
    ensures forall k :: k in Keys(DictOf(c)) ==> k in Keys(AsDict(c))
    ensures forall k :: k !in ListKeys ==> Lookup(DictOf(c), k) == Lookup(AsDict(c), k)
    ensures IsSubsequence(Keys(DictOf(c)), Keys(AsDict(c)))
  {
    AsDictShape(c);
    forall k {
      NormalizeLookup(AsDict(c), k);
    }
    NormalizeKeepsOrder(AsDict(c));
  }

  /** `to_meta` is `to_dict` plus one key, `type`, naming the class. */
  lemma ToMetaAddsType(c: Channel)
    ensures Keys(MetaOf(c)) == Keys(DictOf(c)) + [TypeTag]
    ensures TypeTag !in Keys(DictOf(c))
    ensures forall k :: k != TypeTag ==> Lookup(MetaOf(c), k) == Lookup(DictOf(c), k)
  {
    var d, m := DictOf(c), MetaOf(c);
    assert m == Assign(d, TypeTag, Str(ClassName(c)));
    assert forall i | 0 <= i < |m| :: Keys(m)[i] == (Keys(d) + [TypeTag])[i];
  }

  /** An unlabelled `BasicChannel` keeps its four fields in order, with
      its range and domain as lists. */
  lemma BasicChannelUnlabelled(f: Value, t: Value, r: Value, d: Value)
    ensures DictOf(BasicChannel(f, t, r, d)) ==
            [(Field, f), (Transform, t), (Range, AsList(r)), (Domain, AsList(d))]
  {
    var e := AsDict(BasicChannel(f, t, r, d));
    assert Normalize(e[4..]) == [];
    assert Normalize(e[3..]) == [(Domain, AsList(d))];
    assert Normalize(e[2..]) == [(Range, AsList(r)), (Domain, AsList(d))];
    assert Normalize(e[1..]) == [(Transform, t), (Range, AsList(r)), (Domain, AsList(d))];
  }

  /** An unlabelled `ConditionalChannel` keeps its four fields unchanged,
      `b` included when it is `None`. */
  lemma ConditionalUnlabelled(f: Value, a: Value, b: Value, op: Value)
    ensures DictOf(ConditionalChannel(f, a, b, op)) == [(Field, f), (A, a), (B, b), (Op, op)]
  {
    var e := AsDict(ConditionalChannel(f, a, b, op));
    assert Normalize(e[4..]) == [];
    assert Normalize(e[3..]) == [(Op, op)];
    assert Normalize(e[2..]) == [(B, b), (Op, op)];
    assert Normalize(e[1..]) == [(A, a), (B, b), (Op, op)];
  }

  /** A labelled `ConstantColor` keeps all three of its fields. */
  lemma ConstantColorLabelled(f: Value, k: Value, h: Value)
    requires h != Null
    ensures DictOf(ConstantColor(f, k, h)) == [(Field, f), (Constant, k), (Human, h)]
  {
    var e := AsDict(ConstantColor(f, k, h));
    assert Normalize(e[2..]) == [(Human, h)];
    assert Normalize(e[1..]) == [(Constant, k), (Human, h)];
  }

  // Defaults.

  /** `BasicChannel(field=f)`: `transform` is `literal`, and `range` and
      `domain` stay in the dict as `None`. */
  lemma BasicChannelDefaults(f: Value)
    ensures DictOf(BasicChannel(f)) == [(Field, f), (Transform, Str("literal")), (Range, Null), (Domain, Null)]
  {
    BasicChannelUnlabelled(f, Str("literal"), Null, Null);
  }

  /** `BasicBooleanChannel(field=f)`: `range` and `domain` default to the
      tuple `(0, 1)` and are serialised as the list `[0, 1]`. */
  lemma BasicBooleanChannelDefaults(f: Value)
    ensures DictOf(BasicBooleanChannel(f)) ==
            [(Field, f), (Transform, Str("literal")),
             (Range, List([Num(0), Num(1)])), (Domain, List([Num(0), Num(1)]))]
  {
    var e := AsDict(BasicBooleanChannel(f));
    var unit := List([Num(0), Num(1)]);
    assert Normalize(e[4..]) == [];
    assert Normalize(e[3..]) == [(Domain, unit)];
    assert Normalize(e[2..]) == [(Range, unit), (Domain, unit)];
    assert Normalize(e[1..]) == [(Transform, Str("literal")), (Range, unit), (Domain, unit)];
  }

  /** The constant records default `constant` to the strings `boolean`,
      `number` and `blue`. */
  lemma ConstantDefaults(f: Value)
    ensures DictOf(ConstantBool(f)) == [(Field, f), (Constant, Str("boolean"))]
    ensures DictOf(ConstantNumber(f)) == [(Field, f), (Constant, Str("number"))]
    ensures DictOf(ConstantColor(f)) == [(Field, f), (Constant, Str("blue"))]
  {
    var b, n, k := AsDict(ConstantBool(f)), AsDict(ConstantNumber(f)), AsDict(ConstantColor(f));
    assert Normalize(b[2..]) == [] && Normalize(n[2..]) == [] && Normalize(k[2..]) == [];
    assert Normalize(b[1..]) == [(Constant, Str("boolean"))];
    assert Normalize(n[1..]) == [(Constant, Str("number"))];
    assert Normalize(k[1..]) == [(Constant, Str("blue"))];
  }
}
