/** The semantic half of the block definition contract, and what an accepted definition guarantees. */
module BlockDefinitions {
  import opened Common
  import opened ContentContract
  import opened ContentTheorems
  import S = Subsequences

  const MAX_DEPTH: nat := 8
  const MAX_FIELDS: nat := 1000

  // ---- conditions ----

  // Whether a condition on a field may compare it with e.
  predicate ConditionOk(env: Env, kind: Kind, e: Scalar) {
    match kind
    case Pattern(p) => e.SStr? && (p == [] || env.matches(e.s, p))
    case PlainText => e.SStr?
    case Number(_, _, _) => e.SNum? && InRange(env, kind, e.n)
    case Boolean => e.SBool?
    case Select(options) => e.SStr? && e.s in options
    case _ => false
  }

  predicate ScalarKind(kind: Kind) { !kind.RichText? && !kind.Array? }

  // The one text a pattern field takes without asking its pattern.
  predicate UncheckedEmpty(env: Env, kind: Kind, e: Scalar) {
    kind.Pattern? && kind.pattern != [] && e == SStr([]) && !env.matches([], kind.pattern)
  }

  // A condition is accepted exactly when its value fits a scalar field, except for an empty text that the
  // field's pattern does not match.
  lemma ConditionsCompareFittingValues(env: Env, kind: Kind, e: Scalar)
    ensures ConditionOk(env, kind, e) <==>
      ScalarKind(kind) && Fits(env, kind, ScalarValue(e)) && !UncheckedEmpty(env, kind, e)
  {
  }

  // The value of an accepted condition never makes the field it refers to invalid.
  lemma AcceptedConditionNeverInvalid(env: Env, f: Field, e: Scalar, props: seq<(Text, Value)>, path: Path)
    requires ConditionOk(env, f.kind, e)
    ensures OnlyMissing(FieldIssues(env, f, ScalarValue(e), props, path))
  {
    ConditionsCompareFittingValues(env, f.kind, e);
  }

  // ---- schemas ----

  predicate OnlyMissing(issues: seq<Issue>) {
    forall i :: 0 <= i < |issues| ==> issues[i].code == MissingRequired
  }

  predicate DistinctNames(schema: seq<Field>) {
    forall i, j :: 0 <= i < j < |schema| ==> schema[i].name != schema[j].name
  }

  // A condition of field i: it names another field of the schema and compares it with a value that field takes.
  predicate GoodCondition(env: Env, schema: seq<Field>, i: nat, c: Condition)
    requires i < |schema|
  {
    c.name != schema[i].name &&
    exists j :: 0 <= j < |schema| && schema[j].name == c.name && ConditionOk(env, schema[j].kind, c.expected)
  }

  predicate GoodConditions(env: Env, schema: seq<Field>, i: nat, cs: seq<Condition>)
    requires i < |schema|
  {
    (forall k :: 0 <= k < |cs| ==> GoodCondition(env, schema, i, cs[k])) &&
    (forall k, l :: 0 <= k < l < |cs| ==> cs[k].name != cs[l].name)
  }

  // The defaults of a field break no rule when conditions are set aside.
  predicate GoodDefaults(env: Env, f: Field) {
    && (f.default.Some? ==>
          OnlyMissing(PropsIssues(env, [WithoutConditions(f)], Record([(f.name, f.default.value)]))))
    && (f.kind.Array? && f.kind.itemDefault.Some? ==>
          OnlyMissing(PropsIssues(env, WithoutSchemaConditions(f.kind.itemSchema), f.kind.itemDefault.value)))
  }

  predicate SemanticsOk(env: Env, schema: seq<Field>) {
    forall i :: 0 <= i < |schema| ==>
      GoodConditions(env, schema, i, schema[i].hiddenWhen) && GoodConditions(env, schema, i, schema[i].visibleWhen)
      && GoodDefaults(env, schema[i])
  }

  predicate SchemaAccepted(env: Env, schema: seq<Field>, depth: nat)
    decreases schema
  {
    && |schema| <= MAX_FIELDS && depth <= MAX_DEPTH
    && (forall i :: 0 <= i < |schema| && schema[i].kind.Array? ==>
          SchemaAccepted(env, schema[i].kind.itemSchema, depth + 1))
    && DistinctNames(schema)
    && SemanticsOk(env, schema)
  }

  predicate DefinitionAccepted(env: Env, schema: seq<Field>, defaults: Value) {
    SchemaAccepted(env, schema, 0) && OnlyMissing(PropsIssues(env, WithoutSchemaConditions(schema), defaults))
  }

  // ---- the loops that decide acceptance ----

  method ValidateConditions(env: Env, schema: seq<Field>, i: nat, cs: seq<Condition>) returns (ok: bool)
    requires i < |schema| && DistinctNames(schema)
    ensures ok == GoodConditions(env, schema, i, cs)
  {
    var names: set<Text> := {};
    var k := 0;
    while k < |cs|
      invariant k <= |cs|
      invariant forall l :: 0 <= l < k ==> cs[l].name in names && GoodCondition(env, schema, i, cs[l])
      invariant forall n :: n in names ==> exists l :: 0 <= l < k && cs[l].name == n
      invariant forall l, m :: 0 <= l < m < k ==> cs[l].name != cs[m].name
    {
      if cs[k].name in names {
        return false;
      }
      names := names + {cs[k].name};
      var j := 0;
      while j < |schema| && schema[j].name != cs[k].name
        invariant j <= |schema|
        invariant forall l :: 0 <= l < j ==> schema[l].name != cs[k].name
      {
        j := j + 1;
      }
      if j == |schema| || j == i || !ConditionOk(env, schema[j].kind, cs[k].expected) {
        return false;
      }
      k := k + 1;
    }
    return true;
  }

  method ValidateSchemaSemantics(env: Env, schema: seq<Field>) returns (ok: bool)
    requires DistinctNames(schema)
    ensures ok == SemanticsOk(env, schema)
  {
    hide GoodConditions, GoodDefaults;
    var i := 0;
    while i < |schema|
      invariant i <= |schema|
      invariant forall l :: 0 <= l < i ==>
        GoodConditions(env, schema, l, schema[l].hiddenWhen) && GoodConditions(env, schema, l, schema[l].visibleWhen)
        && GoodDefaults(env, schema[l])
    {
      var hiddenOk := ValidateConditions(env, schema, i, schema[i].hiddenWhen);
      var visibleOk := ValidateConditions(env, schema, i, schema[i].visibleWhen);
      if !hiddenOk || !visibleOk || !GoodDefaults(env, schema[i]) {
        return false;
      }
      i := i + 1;
    }
    return true;
  }

  method ValidatePropSchema(env: Env, schema: seq<Field>, depth: nat) returns (ok: bool)
    ensures ok == SchemaAccepted(env, schema, depth)
    decreases schema
  {
    hide SemanticsOk;
    if |schema| > MAX_FIELDS || depth > MAX_DEPTH {
      return false;
    }
    var names: set<Text> := {};
    var i := 0;
    while i < |schema|
      invariant i <= |schema|
      invariant forall l :: 0 <= l < i ==> schema[l].name in names
      invariant forall n :: n in names ==> exists l :: 0 <= l < i && schema[l].name == n
      invariant forall l, m :: 0 <= l < m < i ==> schema[l].name != schema[m].name
      invariant forall l :: 0 <= l < i && schema[l].kind.Array? ==>
        SchemaAccepted(env, schema[l].kind.itemSchema, depth + 1)
    {
      if schema[i].kind.Array? {
        var nested := ValidatePropSchema(env, schema[i].kind.itemSchema, depth + 1);
        if !nested {
          return false;
        }
      }
      if schema[i].name in names {
        return false;
      }
      names := names + {schema[i].name};
      i := i + 1;
    }
    ok := ValidateSchemaSemantics(env, schema);
  }

  // ---- what acceptance guarantees ----

  lemma SubsequenceOnlyMissing(a: seq<Issue>, b: seq<Issue>)
    requires S.Subsequence(a, b) && OnlyMissing(b)
    ensures OnlyMissing(a)
  {
    S.Members(a, b);
    assert forall i :: 0 <= i < |a| ==> a[i] in a;
  }

  lemma SameCodesOnlyMissing(a: seq<Issue>, b: seq<Issue>)
    requires Codes(a) == Codes(b) && OnlyMissing(b)
    ensures OnlyMissing(a)
  {
    assert forall i :: 0 <= i < |a| ==> Codes(a)[i] == a[i].code && Codes(b)[i] == b[i].code;
  }

  // With no other field, the issues of a one-prop object are those of its field.
  lemma OneProp(env: Env, f: Field, v: Value, path: Path)
    requires !Hidden(f, [(f.name, v)])
    ensures SchemaIssues(env, [f], [(f.name, v)], path) == FieldIssues(env, f, v, [(f.name, v)], path + [Prop(f.name)])
  {
    hide FieldIssues, Hidden;
    var schema, props := [f], [(f.name, v)];
    assert schema[0].name == f.name && Known(schema, f.name);
    assert schema[1..] == [] && props[1..] == [];
    assert UnknownProps(schema, props, path) == [];
    var own := FieldIssues(env, f, v, props, path + [Prop(f.name)]);
    assert Get(props, f.name) == v;
    assert FieldsIssues(env, schema, props, path) == own + [] == own;
    assert [] + own == own;
  }

  lemma DefaultIsSound(env: Env, f: Field, props: seq<(Text, Value)>, path: Path)
    requires f.default.Some? && GoodDefaults(env, f)
    ensures OnlyMissing(FieldIssues(env, f, Undefined, props, path))
  {
    hide Present, Fits, SchemaIssues;
    var d := f.default.value;
    var bare := WithoutConditions(f);
    var own := [(f.name, d)];
    BareField(env, f, d, own);
    OneProp(env, bare, d, [Props]);
    var bad := [Issue(InvalidContent, [Props], [])];
    assert bad[0].code == InvalidContent;
    if d != Undefined && !Hidden(f, props) {
      assert OnlyMissing(Present(env, bare, d, [Props] + [Prop(f.name)]));
      PresentShrinks(env, f, d, [Props] + [Prop(f.name)]);
      SubsequenceOnlyMissing(Present(env, f, d, [Props] + [Prop(f.name)]),
                             Present(env, bare, d, [Props] + [Prop(f.name)]));
      PresentAnywhere(env, f, d, path, [Props] + [Prop(f.name)]);
      SameCodesOnlyMissing(Present(env, f, d, path), Present(env, f, d, [Props] + [Prop(f.name)]));
    }
  }

  // The schema reached by following item schemas.
  function SchemaAt(schema: seq<Field>, trail: seq<nat>): Option<seq<Field>>
    decreases |trail|
  {
    if trail == [] then Some(schema)
    else if trail[0] < |schema| && schema[trail[0]].kind.Array?
    then SchemaAt(schema[trail[0]].kind.itemSchema, trail[1..])
    else None
  }

  lemma {:induction false} AcceptedAtEveryDepth(env: Env, schema: seq<Field>, depth: nat, trail: seq<nat>)
    requires SchemaAccepted(env, schema, depth) && SchemaAt(schema, trail).Some?
    ensures depth + |trail| <= MAX_DEPTH && SchemaAccepted(env, SchemaAt(schema, trail).value, depth + |trail|)
    decreases |trail|
  {
    if trail != [] {
      AcceptedAtEveryDepth(env, schema[trail[0]].kind.itemSchema, depth + 1, trail[1..]);
    }
  }

  /**
   * In an accepted definition, at every nesting depth, a default that stands in for an absent prop raises
   * no issue but a missing required prop, whatever the other props are and wherever the object stands.
   */
  lemma DefaultsAreSound(env: Env, schema: seq<Field>, defaults: Value, trail: seq<nat>, i: nat,
                         props: seq<(Text, Value)>, path: Path)
    requires DefinitionAccepted(env, schema, defaults)
    requires SchemaAt(schema, trail).Some? && i < |SchemaAt(schema, trail).value|
    requires var f := SchemaAt(schema, trail).value[i]; f.default.Some?
    ensures var f := SchemaAt(schema, trail).value[i]; OnlyMissing(FieldIssues(env, f, Undefined, props, path))
  {
    hide FieldIssues, PropsIssues;
    AcceptedAtEveryDepth(env, schema, 0, trail);
    DefaultIsSound(env, SchemaAt(schema, trail).value[i], props, path);
  }

  /** With its conditions back in place, an accepted definition's default props still raise no other issue. */
  lemma DefaultPropsAreSound(env: Env, schema: seq<Field>, defaults: Value)
    requires DefinitionAccepted(env, schema, defaults)
    ensures OnlyMissing(PropsIssues(env, schema, defaults))
  {
    hide SchemaIssues, SchemaAccepted;
    if env.structural(defaults) && defaults.Record? {
      SchemaShrinks(env, schema, defaults.fields, [Props]);
      SubsequenceOnlyMissing(SchemaIssues(env, schema, defaults.fields, [Props]),
                             SchemaIssues(env, WithoutSchemaConditions(schema), defaults.fields, [Props]));
    }
  }

  /** An item inserted from an accepted array field's item default raises no other issue, wherever it lands. */
  lemma ItemDefaultsAreSound(env: Env, schema: seq<Field>, defaults: Value, trail: seq<nat>, i: nat, path: Path)
    requires DefinitionAccepted(env, schema, defaults)
    requires SchemaAt(schema, trail).Some? && i < |SchemaAt(schema, trail).value|
    requires var f := SchemaAt(schema, trail).value[i]; f.kind.Array? && f.kind.itemDefault.Some?
    ensures var f := SchemaAt(schema, trail).value[i];
      f.kind.itemDefault.value.Record? &&
      OnlyMissing(SchemaIssues(env, f.kind.itemSchema, f.kind.itemDefault.value.fields, path))
  {
    hide SchemaIssues;
    AcceptedAtEveryDepth(env, schema, 0, trail);
    var f := SchemaAt(schema, trail).value[i];
    assert GoodDefaults(env, f);
    var (items, v) := (f.kind.itemSchema, f.kind.itemDefault.value);
    var bad := [Issue(InvalidContent, [Props], [])];
    assert bad[0].code == InvalidContent;
    SchemaShrinks(env, items, v.fields, [Props]);
    SubsequenceOnlyMissing(SchemaIssues(env, items, v.fields, [Props]),
                           SchemaIssues(env, WithoutSchemaConditions(items), v.fields, [Props]));
    SchemaAnywhere(env, items, v.fields, path, [Props]);
    SameCodesOnlyMissing(SchemaIssues(env, items, v.fields, path), SchemaIssues(env, items, v.fields, [Props]));
  }

  // ---- conditions of an accepted definition can be met ----

  // The props a list of conditions asks for.
  function Asked(cs: seq<Condition>): seq<(Text, Value)> {
    if cs == [] then [] else [(cs[0].name, ScalarValue(cs[0].expected))] + Asked(cs[1..])
  }

  predicate DistinctConditions(cs: seq<Condition>) {
    forall k, l :: 0 <= k < l < |cs| ==> cs[k].name != cs[l].name
  }

  lemma {:induction false} AskedIsGiven(cs: seq<Condition>, k: nat)
    requires DistinctConditions(cs) && k < |cs|
    ensures Get(Asked(cs), cs[k].name) == ScalarValue(cs[k].expected)
  {
    assert Asked(cs)[1..] == Asked(cs[1..]);
    if k > 0 {
      AskedIsGiven(cs[1..], k - 1);
    }
  }

  // A prop that is not asked for is absent.
  lemma {:induction false} OthersAreAbsent(cs: seq<Condition>, name: Text)
    requires forall k :: 0 <= k < |cs| ==> cs[k].name != name
    ensures Get(Asked(cs), name) == Undefined
  {
    if cs != [] {
      assert Asked(cs)[1..] == Asked(cs[1..]);
      OthersAreAbsent(cs[1..], name);
    }
  }

  lemma {:induction false} AskedIsKnown(schema: seq<Field>, cs: seq<Condition>, path: Path)
    requires forall k :: 0 <= k < |cs| ==> Known(schema, cs[k].name)
    ensures UnknownProps(schema, Asked(cs), path) == []
  {
    hide Known;
    if cs != [] {
      assert Asked(cs)[1..] == Asked(cs[1..]);
      assert Known(schema, cs[0].name);
      AskedIsKnown(schema, cs[1..], path);
    }
  }

  // No field objects to the props asked for by conditions of the schema.
  lemma AskedSuitsField(env: Env, schema: seq<Field>, i: nat, cs: seq<Condition>, j: nat, path: Path)
    requires i < |schema| && j < |schema| && DistinctNames(schema) && SemanticsOk(env, schema)
    requires GoodConditions(env, schema, i, cs)
    ensures var f := schema[j]; OnlyMissing(FieldIssues(env, f, Get(Asked(cs), f.name), Asked(cs), path))
  {
    hide ConditionOk, GoodDefaults, Fits;
    var f := schema[j];
    if k :| 0 <= k < |cs| && cs[k].name == f.name {
      assert GoodCondition(env, schema, i, cs[k]);
      var l :| 0 <= l < |schema| && schema[l].name == cs[k].name && ConditionOk(env, schema[l].kind, cs[k].expected);
      assert l == j;
      AskedIsGiven(cs, k);
      AcceptedConditionNeverInvalid(env, f, cs[k].expected, Asked(cs), path);
    } else {
      OthersAreAbsent(cs, f.name);
      if f.default.Some? {
        DefaultIsSound(env, f, Asked(cs), path);
      }
    }
  }

  lemma {:induction false} FieldsOnlyMissing(env: Env, schema: seq<Field>, props: seq<(Text, Value)>, path: Path)
    requires forall j :: 0 <= j < |schema| ==>
      OnlyMissing(FieldIssues(env, schema[j], Get(props, schema[j].name), props, path + [Prop(schema[j].name)]))
    ensures OnlyMissing(FieldsIssues(env, schema, props, path))
  {
    hide FieldIssues;
    if schema != [] {
      assert forall j :: 0 <= j < |schema[1..]| ==> schema[1..][j] == schema[j + 1];
      FieldsOnlyMissing(env, schema[1..], props, path);
    }
  }

  /**
   * The conditions of an accepted definition are not dead: at every nesting depth, the props that a field's
   * condition list asks for meet all of its conditions at once, name only known props, and raise no issue but
   * missing required props.
   */
  lemma ConditionsCanBeMet(env: Env, schema: seq<Field>, defaults: Value, trail: seq<nat>, i: nat,
                           cs: seq<Condition>, path: Path)
    requires DefinitionAccepted(env, schema, defaults)
    requires SchemaAt(schema, trail).Some? && i < |SchemaAt(schema, trail).value|
    requires var f := SchemaAt(schema, trail).value[i]; cs == f.hiddenWhen || cs == f.visibleWhen
    ensures forall k :: 0 <= k < |cs| ==> Holds(cs[k], Asked(cs))
    ensures OnlyMissing(SchemaIssues(env, SchemaAt(schema, trail).value, Asked(cs), path))
  {
    hide FieldIssues, PropsIssues, GoodDefaults, ConditionOk, Get;
    AcceptedAtEveryDepth(env, schema, 0, trail);
    var at := SchemaAt(schema, trail).value;
    assert GoodConditions(env, at, i, cs) && DistinctConditions(cs);
    forall k | 0 <= k < |cs| ensures Holds(cs[k], Asked(cs)) {
      AskedIsGiven(cs, k);
    }
    forall k | 0 <= k < |cs| ensures Known(at, cs[k].name) {
      assert GoodCondition(env, at, i, cs[k]);
    }
    AskedIsKnown(at, cs, path);
    forall j | 0 <= j < |at|
      ensures OnlyMissing(FieldIssues(env, at[j], Get(Asked(cs), at[j].name), Asked(cs), path + [Prop(at[j].name)]))
    {
      AskedSuitsField(env, at, i, cs, j, path + [Prop(at[j].name)]);
    }
    FieldsOnlyMissing(env, at, Asked(cs), path);
  }
}
