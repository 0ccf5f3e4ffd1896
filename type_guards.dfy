/** Literal vocabularies and the guards that test membership in them
    (`LiteralTypeGuard` and its three seeded subclasses). */
module TypeGuards {
  import opened Values

  /** A typing form as `typing.get_args` sees it: `Literal[...]` over string
      tokens, or a `Union[...]` of further forms. */
  datatype TypeForm =
    | Literal(tokens: seq<string>)
    | Union(members: seq<TypeForm>)

  /** One element of the tuple `get_args` returns: a literal token, or (for a
      `Union`) a typing form, which no string value compares equal to. */
  datatype Arg = Token(s: string) | Form(t: TypeForm)

  /** `get_args(t)`: the top-level arguments only, without flattening. */
  function GetArgs(t: TypeForm): (args: seq<Arg>)
    ensures |args| == if t.Literal? then |t.tokens| else |t.members|
    ensures forall i :: 0 <= i < |args| ==>
              args[i] == if t.Literal? then Token(t.tokens[i]) else Form(t.members[i])
  {
    match t
    case Literal(tokens) => seq(|tokens|, i requires 0 <= i < |tokens| => Token(tokens[i]))
    case Union(members) => seq(|members|, i requires 0 <= i < |members| => Form(members[i]))
  }

  /** `value in get_args(t)`: only a string can equal a literal token, and no
      value equals a typing form. */
  predicate InArgs(v: Value, args: seq<Arg>)
    ensures InArgs(v, args) <==> v.Str? && exists i :: 0 <= i < |args| && args[i].Token? && args[i].s == v.s
  {
    v.Str? && Token(v.s) in args
  }

  // The vocabularies (featherplot/types.py:19-20, 106, 114-115).
  const QuadFeatherRequiredColumns: TypeForm := Literal(["x", "y"])
  const QuadFeatherExpectedColumns: TypeForm := Union([QuadFeatherRequiredColumns, Literal(["z"])])
  const Transform: TypeForm := Literal(["literal", "linaer", "log", "sqrt"])
  const SingleArgumentConditional: TypeForm := Literal(["gt", "lt", "gte", "lte", "eq", "neq"])
  const TwoArgumentConditional: TypeForm := Literal(["between", "within"])

  /** A guard instance; `types` is its list of vocabularies, or `None`. */
  datatype TypeGuard = LiteralTypeGuard(types: Option<seq<TypeForm>>)

  /** Two plain `Literal` vocabularies, the one- and two-argument operators. */
  function ConditionalTypeGuard(): (g: TypeGuard)
    ensures g.types.Some? && |g.types.value| == 2
    ensures forall t :: t in g.types.value ==> t.Literal?
  {
    LiteralTypeGuard(Some([SingleArgumentConditional, TwoArgumentConditional]))
  }

  /** One plain `Literal` vocabulary, the transforms. */
  function TransformTypeGuard(): (g: TypeGuard)
    ensures g.types.Some? && |g.types.value| == 1
    ensures forall t :: t in g.types.value ==> t.Literal?
  {
    LiteralTypeGuard(Some([Transform]))
  }

  /** The required columns as a `Literal`, then the expected columns as a
      `Union` that nests it. */
  function QuadFeatherColumnTypeGuard(): (g: TypeGuard)
    ensures g.types.Some? && |g.types.value| == 2
    ensures g.types.value[0].Literal? && g.types.value[1].Union?
    ensures g.types.value[0] in g.types.value[1].members
  {
    LiteralTypeGuard(Some([QuadFeatherRequiredColumns, QuadFeatherExpectedColumns]))
  }

  /** What `check` decides: the guard has vocabularies, and `v` is one of the
      top-level arguments of one of them. */
  predicate Accepts(g: TypeGuard, v: Value)
    ensures Accepts(g, v) ==> v.Str? && g.types.Some? && g.types.value != []
  {
    g.types.Some? && exists t :: t in g.types.value && InArgs(v, GetArgs(t))
  }

  /** `check`: false without vocabularies, otherwise a search through the
      vocabularies that stops at the first one holding `v`. */
  method Check(g: TypeGuard, v: Value) returns (ok: bool)
    ensures ok == Accepts(g, v)
  {
    if g.types.None? {
      return false;
    }
    var types := g.types.value;
    var i := 0;
    while i < |types|
      invariant 0 <= i <= |types|
      invariant forall j :: 0 <= j < i ==> !InArgs(v, GetArgs(types[j]))
    {
      if InArgs(v, GetArgs(types[i])) {
        assert types[i] in types;
        return true;
      }
      i := i + 1;
    }
    return false;
  }

  /** The `TypeGuardError` raised by `validate`; its message names the
      rejected value and the guard's vocabularies. */
  datatype TypeGuardError = TypeGuardError(value: Value, types: Option<seq<TypeForm>>)

  datatype Outcome = Pass | Fail(error: TypeGuardError)

  /** `validate`: returns normally exactly when `check` holds. */
  method Validate(g: TypeGuard, v: Value) returns (r: Outcome)
    ensures r.Pass? <==> Accepts(g, v)
    ensures r.Fail? ==> r.error == TypeGuardError(v, g.types)
  {
    var ok := Check(g, v);
    if !ok {
      return Fail(TypeGuardError(v, g.types));
    }
    return Pass;
  }

  /** A guard whose every vocabulary is a plain `Literal` accepts exactly the
      strings listed in one of them. */
  lemma {:induction false} AcceptsLiterals(g: TypeGuard, v: Value)
    requires g.types.Some?
    requires forall t :: t in g.types.value ==> t.Literal?
    ensures Accepts(g, v) <==> v.Str? && exists t :: t in g.types.value && v.s in t.tokens
  {
    if v.Str? && exists t :: t in g.types.value && v.s in t.tokens {
      var t :| t in g.types.value && v.s in t.tokens;
      var i :| 0 <= i < |t.tokens| && t.tokens[i] == v.s;
      assert GetArgs(t)[i] == Token(v.s);
    }
  }

  /** A guard without vocabularies rejects everything, as does one with an
      empty list of them. */
  lemma NoVocabularyRejects(v: Value)
    ensures !Accepts(LiteralTypeGuard(None), v)
    ensures !Accepts(LiteralTypeGuard(Some([])), v)
  {
  }

  /** `TransformTypeGuard` accepts exactly `literal`, `linaer`, `log`, `sqrt`. */
  lemma TransformGuardAccepts(v: Value)
    ensures Accepts(TransformTypeGuard(), v) <==>
            v in {Str("literal"), Str("linaer"), Str("log"), Str("sqrt")}
  {
    AcceptsLiterals(TransformTypeGuard(), v);
  }

  /** `ConditionalTypeGuard` accepts exactly the six one-argument and the two
      two-argument operators. */
  lemma ConditionalGuardAccepts(v: Value)
    ensures Accepts(ConditionalTypeGuard(), v) <==>
            v in {Str("gt"), Str("lt"), Str("gte"), Str("lte"), Str("eq"), Str("neq"),
                  Str("between"), Str("within")}
  {
    AcceptsLiterals(ConditionalTypeGuard(), v);
  }

  /** `QuadFeatherColumnTypeGuard` as written: the expected-columns vocabulary
      is a `Union`, whose top-level arguments are the two `Literal` forms and
      not their tokens, so only `x` and `y` are accepted. */
  lemma QuadFeatherGuardAccepts(v: Value)
    ensures Accepts(QuadFeatherColumnTypeGuard(), v) <==> v in {Str("x"), Str("y")}
  {
    var g := QuadFeatherColumnTypeGuard();
    if v == Str("x") {
      assert GetArgs(QuadFeatherRequiredColumns)[0] == Token("x");
    } else if v == Str("y") {
      assert GetArgs(QuadFeatherRequiredColumns)[1] == Token("y");
    }
    assert GetArgs(QuadFeatherExpectedColumns) == [Form(QuadFeatherRequiredColumns), Form(Literal(["z"]))];
  }

  /** The string tokens of a form, looking through nested unions. */
  function LiteralTokens(t: TypeForm): (ts: seq<string>)
    ensures t.Literal? ==> ts == t.tokens
  {
    match t
    case Literal(tokens) => tokens
    case Union(members) => Concat(seq(|members|, i requires 0 <= i < |members| => LiteralTokens(members[i])))
  }

  function Concat(parts: seq<seq<string>>): (ts: seq<string>)
  {
    if parts == [] then [] else parts[0] + Concat(parts[1..])
  }

  /** The same guard with every vocabulary replaced by the flat `Literal` of
      its tokens, which is what membership in a union of literals means. */
  function Flattened(g: TypeGuard): (f: TypeGuard)
    ensures g.types.None? <==> f.types.None?
  {
    match g.types
    case None => g
    case Some(types) =>
      LiteralTypeGuard(Some(seq(|types|, i requires 0 <= i < |types| => Literal(LiteralTokens(types[i])))))
  }

  /** Flattening only adds tokens: everything the guard accepted, the
      flattened guard accepts too. */
  lemma FlattenedAcceptsMore(g: TypeGuard, v: Value)
    requires Accepts(g, v)
    ensures Accepts(Flattened(g), v)
  {
    var types := g.types.value;
    var t :| t in types && InArgs(v, GetArgs(t));
    var i :| 0 <= i < |types| && types[i] == t;
    var k :| 0 <= k < |GetArgs(t)| && GetArgs(t)[k] == Token(v.s);
    var flat := Flattened(g).types.value;
    assert flat[i] == Literal(t.tokens);
    assert GetArgs(flat[i])[k] == Token(v.s);
  }

  /** The column guard with its vocabularies flattened accepts `x`, `y` and
      `z`, and nothing else. */
  lemma FlattenedQuadFeatherGuardAccepts(v: Value)
    ensures Accepts(Flattened(QuadFeatherColumnTypeGuard()), v) <==> v in {Str("x"), Str("y"), Str("z")}
  {
    var g := Flattened(QuadFeatherColumnTypeGuard());
    var parts := seq(2, i requires 0 <= i < 2 => LiteralTokens(QuadFeatherExpectedColumns.members[i]));
    assert parts == [["x", "y"], ["z"]];
    assert Concat(parts) == ["x", "y"] + Concat([["z"]]);
    assert LiteralTokens(QuadFeatherExpectedColumns) == ["x", "y", "z"];
    assert g.types.value == [Literal(["x", "y"]), Literal(["x", "y", "z"])];
    AcceptsLiterals(g, v);
  }
}
