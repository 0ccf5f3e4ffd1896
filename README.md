# featherplot channel types, in Dafny

This project models `featherplot/types.py`, which has two parts:

* **Literal vocabulary guards.** `LiteralTypeGuard.check` tells whether a value is one of the
  top-level `get_args` of one of the guard's `Literal` vocabularies. `validate` raises
  `TypeGuardError` when `check` fails. Three subclasses seed the vocabularies:
  * `ConditionalTypeGuard`: the comparison operators.
  * `TransformTypeGuard`: the scale transforms, with `linaer` spelled as in the source.
  * `QuadFeatherColumnTypeGuard`: the quad-tile columns.
* **Channel records and their serialiser.** There are eleven dataclass records: `BaseChannel` and
  its ten subclasses. Each has its fields in declaration order, with their defaults.
  * `export_tuple_as_list` rewrites a tuple stored under one key of a dict into a list, in place.
  * `to_dict` runs `asdict`, turns the tuples under `range`, `domain` and `categories` into
    lists, and deletes `human` and `categories` when they are `None`.
  * `to_meta` adds a `type` item naming the class.

The files are:

* `values.dfy` (module `Values`): the Python values that occur in records (`None`, bool, number,
  string, tuple, list) and `list(val)` on a tuple.
* `dicts.dfy` (module `Dicts`): a Python dict as an insertion-ordered sequence of items with
  distinct keys.
  * Pure specification functions: `Keys`, `Lookup`, `Assign`, `Erase`.
  * A class `Dict` whose methods (`Get`, `Contains`, `Set`, `Delete`) change its contents in place,
    as `d.get`, `in`, `d[k] = v` and `del d[k]` do.
* `type_guards.dfy` (module `TypeGuards`):
  * the typing forms and `get_args`
  * the vocabularies and the guards
  * `Check`, the search loop, and `Validate`
  * the acceptance lemmas
  * the flattened guard used by the finding below
* `channels.dfy` (module `Channels`):
  * the `Channel` datatype and `asdict` (`AsDict`)
  * the imperative `ExportTupleAsList`, `ToDict` and `ToMeta` on a `Dict`, each proved equal to
    a specification function (`ListifyAt`, `DictOf`, `MetaOf`)
  * `Normalize`, an item-by-item reference definition of `to_dict`, and the lemmas about what
    the serialised dict holds

## Model

| member | source | states |
|---|---|---|
| Values.AsList | featherplot/types.py:127-128 | `list(val)` for a tuple gives a list with the same elements in the same order; any other value is returned as it is; the result is never a tuple |
| Dicts.NameInjective | featherplot/types.py:134-147 | the Python spellings of the keys are pairwise distinct, and `type` spells only the discriminator that `to_meta` adds, never a record field |
| Dicts.Keys | featherplot/types.py:138 | the keys of a dict, one per item, in insertion order |
| Dicts.Lookup | featherplot/types.py:125 | `d.get(k, None)` is `None` for an absent key, and otherwise a value stored under `k` |
| Dicts.LookupUnique | featherplot/types.py:125 | in a dict (keys distinct), `get` returns exactly the value stored with the key |
| Dicts.Assign | featherplot/types.py:128 | `d[k] = v`: `get(k)` is then `v`, and every other key's value is unchanged |
| Dicts.AssignPresent | featherplot/types.py:128 | assigning to a present key overwrites its item in place: the keys and their order are unchanged |
| Dicts.AssignAbsent | featherplot/types.py:147 | assigning to a new key appends one item at the end |
| Dicts.AssignUnique | featherplot/types.py:128 | assignment keeps the keys of a dict distinct |
| Dicts.EraseAbsent | featherplot/types.py:138-141 | deleting a key that is not present leaves the items as they were |
| Dicts.EraseSplit | featherplot/types.py:138-141 | `del d[k]` removes exactly the item under `k` and closes the gap: the items before it and the items after it keep their order |
| Dicts.Erase | featherplot/types.py:138-141 | `del d[k]`: `k` is gone, exactly the other keys remain, their values are unchanged, and keys stay distinct (the order of what remains is stated by `EraseSplit`) |
| Dicts.Dict.constructor | featherplot/types.py:132 | a new dict holding the given items in order |
| Dicts.Dict.Get | featherplot/types.py:125 | `d.get(key, None)` on the dict object, in terms of its contents |
| Dicts.Dict.Contains | featherplot/types.py:138-141 | `key in d` holds exactly when some item has that key |
| Dicts.Dict.Set | featherplot/types.py:128 | the contents become `Assign` of the old contents; the dict stays valid |
| Dicts.Dict.Delete | featherplot/types.py:138-141 | the contents become `Erase` of the old contents; the dict stays valid |
| TypeGuards.InArgs | featherplot/types.py:81 | `value in get_args(t)` holds iff the value is a string equal to one of the `Literal` tokens among the arguments; no value equals a typing form |
| TypeGuards.Accepts | featherplot/types.py:76-83 | what `check` decides: some vocabulary has the value among its top-level arguments; only a string can be accepted, and only by a guard with at least one vocabulary |
| TypeGuards.ConditionalTypeGuard | featherplot/types.py:89-92 | the guard's vocabularies are the two plain `Literal`s of one- and two-argument operators |
| TypeGuards.TransformTypeGuard | featherplot/types.py:94-97 | the guard's only vocabulary is the plain `Literal` of transforms |
| TypeGuards.QuadFeatherColumnTypeGuard | featherplot/types.py:99-102 | the guard has two vocabularies: the required columns as a `Literal`, then the expected columns as a `Union` that contains that `Literal` |
| TypeGuards.GetArgs | featherplot/types.py:80-81 | `get_args` returns the top-level arguments: the tokens of a `Literal`, and the member forms of a `Union` (not their tokens) |
| TypeGuards.Check | featherplot/types.py:75-83 | `check` is false when `types` is `None`, and otherwise true iff the value is among the `get_args` of some vocabulary (`Accepts`) |
| TypeGuards.Validate | featherplot/types.py:84-87 | `validate` returns normally iff the guard accepts the value, and otherwise fails with a `TypeGuardError` carrying the value and the vocabularies |
| TypeGuards.AcceptsLiterals | featherplot/types.py:80-83 | a guard made only of `Literal` vocabularies accepts exactly the strings listed in one of them, and no non-string |
| TypeGuards.NoVocabularyRejects | featherplot/types.py:77-78 | a guard whose vocabularies are `None`, or an empty list, accepts nothing |
| TypeGuards.TransformGuardAccepts | featherplot/types.py:106 | `TransformTypeGuard` accepts exactly `literal`, `linaer`, `log` and `sqrt` |
| TypeGuards.ConditionalGuardAccepts | featherplot/types.py:114-115 | `ConditionalTypeGuard` accepts exactly `gt`, `lt`, `gte`, `lte`, `eq`, `neq`, `between` and `within` |
| TypeGuards.QuadFeatherGuardAccepts | featherplot/types.py:19-20 | `QuadFeatherColumnTypeGuard`, as written, accepts exactly `x` and `y`; `z` is rejected because it sits inside a nested `Literal` of a `Union` |
| TypeGuards.FlattenedAcceptsMore | featherplot/types.py:80-83 | every value a guard accepts, its flattened form accepts too |
| TypeGuards.FlattenedQuadFeatherGuardAccepts | featherplot/types.py:19-20 | the column guard with its unions flattened accepts exactly `x`, `y` and `z` |
| Channels.ClassNameIdentifies | featherplot/types.py:146 | `self.__class__.__name__` (`ClassName`) tells the record classes apart: two records have the same name iff they are of the same class |
| Channels.AsDict | featherplot/types.py:153-230 | `asdict(self)` holds the record's `human` label (for every record that has one) and, for `CategoricalColorChannel`, its `categories` |
| Channels.AsDictShape | featherplot/types.py:153-230 | the field names of each record are distinct; `human` is a field of every record except the bare `BaseChannel`; `categories` is a field only of `CategoricalColorChannel`; no record has a field named `type` |
| Channels.AsDictKeys | featherplot/types.py:153-230 | each record's field names, in dataclass order with inherited fields first, pairwise distinct and matching `asdict` item by item |
| Channels.Normalize | featherplot/types.py:131-142 | the item-by-item form of `to_dict`'s result is no longer than its input and holds no key that was not a field |
| Channels.DictOf | featherplot/types.py:131-142 | `to_dict` of a record holds only the record's own fields and never a `type` item |
| Channels.ListifyAt | featherplot/types.py:124-129 | after `export_tuple_as_list(d, key)` the keys are the same and in the same order; the value under `key` is `list(val)` when it was a tuple and unchanged otherwise; all other values are unchanged |
| Channels.ExportTupleAsList | featherplot/types.py:124-129 | the dict is rewritten in place to `ListifyAt` of its old contents, and the same dict is returned |
| Channels.DeleteIfNone | featherplot/types.py:138-141 | `if key in d and d[key] is None: del d[key]` leaves the dict as `DropIfNull` describes |
| Channels.ToDict | featherplot/types.py:131-142 | `to_dict` returns a new dict whose contents are `Normalize` of `asdict`: every field in order, with `human` and `categories` dropped when `None` and tuples under the list keys made lists |
| Channels.MetaOf | featherplot/types.py:144-148 | `to_meta` is `to_dict` followed by one appended item, `type`, whose value is the class name |
| Channels.ToMeta | featherplot/types.py:144-148 | the dict `to_meta` returns holds exactly `MetaOf` of the record |
| Channels.NormalizeLookup | featherplot/types.py:134-141 | a key survives the serialisation iff it was a field and is not a `None` under `human`/`categories`; its value is the field's value, made a list if it was a tuple under `range`, `domain` or `categories` |
| Channels.NormalizeKeepsOrder | featherplot/types.py:132-142 | the serialised keys are a subsequence of the fields in declaration order |
| Channels.ToDictHasNoTuples | featherplot/types.py:134-136 | after `to_dict`, no value under `range`, `domain` or `categories` is a tuple, and each holds `list` of the record's value |
| Channels.ToDictOmitsHuman | featherplot/types.py:138-139 | `to_dict` has `human` iff the record has a label that is not `None` |
| Channels.ToDictOmitsCategories | featherplot/types.py:140-141 | `to_dict` has `categories` iff the record is a `CategoricalColorChannel` whose categories are not `None` |
| Channels.ToDictKeepsFields | featherplot/types.py:132-142 | every other field stays, even when `None`, with its value unchanged outside the list keys; no key is invented; declaration order is kept |
| Channels.ToMetaAddsType | featherplot/types.py:144-148 | `to_meta` has the keys of `to_dict` plus `type`, last; `to_dict` has no `type`; every other key keeps its value |
| Channels.BasicChannelUnlabelled | featherplot/types.py:131-142 | an unlabelled `BasicChannel` serialises to `field`, `transform`, `range`, `domain` in order, with list ranges and domains |
| Channels.ConditionalUnlabelled | featherplot/types.py:131-142 | an unlabelled `ConditionalChannel` serialises to `field`, `a`, `b`, `op`, with `b` kept even when `None` |
| Channels.ConstantColorLabelled | featherplot/types.py:131-142 | a labelled `ConstantColor` keeps `field`, `constant` and `human` |
| Channels.BasicChannelDefaults | featherplot/types.py:197-200 | by default `transform` is `literal`, and `range` and `domain` stay in the dict as `None` |
| Channels.BasicBooleanChannelDefaults | featherplot/types.py:205-206 | by default `range` and `domain` are `(0, 1)` and are serialised as `[0, 1]` |
| Channels.ConstantDefaults | featherplot/types.py:172-188 | the constant records default `constant` to the strings `boolean`, `number` and `blue` |

## Left out

- The `rich.repr` decorator and the `dataclass`/`asdict` reflection. `AsDict` lists each record's fields explicitly instead, with the dataclass field order.
- The exception classes at featherplot/types.py:28-67. None of them is raised successfully anywhere in this file, and only `validate` tries to raise one.
- TypeGuards.Validate: models the evident intent of `validate`, a `TypeGuardError` that carries the rejected value and the vocabularies (the `Fail` outcome). As written, `TypeGuardError` is a dataclass with no fields, so its generated constructor takes no message. Building it with one at featherplot/types.py:87 therefore raises a plain `TypeError`, and `except TypeGuardError` never catches it. The text of the message is not modelled either.
- The type-level aliases and unions (`Range`, `StringRange`, `Domain`, `Conditional`, `FunctionalChannel`, `ConstantChannel`, `BooleanChannel`, `ColorChannel`, `RootChannel`). They are static annotations with no run-time behaviour, and no guard uses `Conditional`.
- Field annotations are not enforced: a record field may hold any `Value`, as it may in Python. This is why `to_dict`'s behaviour depends on whether a field actually holds a tuple.
- The int/float distinction: numbers are `int`, and nothing computes with them.
- Checks the source does not make: operator arity for `ConditionalChannel`, and validation of `transform` or `op` when a record is built.
- TypeGuards.Check: the source reads `types` from the class (`cls.types`). The dataclass machinery removes that class attribute for a field with a `default_factory`, and `LiteralTypeGuard` declares none. So as written the call fails with `AttributeError` instead of searching. The model takes the guard's vocabulary list as a value, which is the evident intent.
- Dict keys are the fixed set of record field names plus `type`, as an enumeration (`Dicts.Key`). `Dicts.Name` gives each key's Python spelling, and `Dicts.NameInjective` shows that the spellings are distinct. No other key ever occurs in these dicts.
- The constant records default `constant` to the placeholder strings `boolean`, `number` and `blue`, as the code does, even though the annotations name a bool, a number and a colour.

## Findings

| source | as written | input that shows it | evidently intended | confidence | as-written member | corrected member |
|---|---|---|---|---|---|---|
| featherplot/types.py:19-20 | `QUADFEATHER_EXPECTED_COLUMNS` is a `Union` of two `Literal`s. `get_args` of it yields the two `Literal` forms, not their tokens, so `QuadFeatherColumnTypeGuard.check` accepts only `x` and `y` | the string `"z"` | `x`, `y` and `z` are all accepted columns | not executed | TypeGuards.QuadFeatherGuardAccepts | TypeGuards.FlattenedQuadFeatherGuardAccepts |
