/** Which visibility conditions a definition may carry, judged by the content checker itself. */
module BlockConditions {
  import opened Common
  import opened ContentContract
  import opened ContentTheorems
  import opened BlockDefinitions
  import opened ContentReports

  // ---- visibility ----

  // The props differ at most in the prop of that name.
  ghost predicate DifferOnlyAt(props: seq<(Text, Value)>, props': seq<(Text, Value)>, name: Text) {
    forall n: Text :: n != name ==> Get(props, n) == Get(props', n)
  }

  /** Whether a field of an accepted definition is shown does not depend on its own value, at any nesting depth. */
  lemma VisibilityIgnoresOwnValue(env: Env, schema: seq<Field>, defaults: Value, trail: seq<nat>, i: nat,
                                  props: seq<(Text, Value)>, props': seq<(Text, Value)>)
    requires DefinitionAccepted(env, schema, defaults)
    requires SchemaAt(schema, trail).Some? && i < |SchemaAt(schema, trail).value|
    requires DifferOnlyAt(props, props', SchemaAt(schema, trail).value[i].name)
    ensures var f := SchemaAt(schema, trail).value[i]; Shown(f, props) == Shown(f, props')
  {
    hide PropsIssues, GoodDefaults, ConditionOk, Get, Hidden;
    AcceptedAtEveryDepth(env, schema, 0, trail);
    var at := SchemaAt(schema, trail).value;
    var f := at[i];
    assert GoodConditions(env, at, i, f.hiddenWhen) && GoodConditions(env, at, i, f.visibleWhen);
    forall c | c in f.hiddenWhen || c in f.visibleWhen ensures Get(props, c.name) == Get(props', c.name) {
      if k :| 0 <= k < |f.hiddenWhen| && f.hiddenWhen[k] == c {
        assert GoodCondition(env, at, i, f.hiddenWhen[k]);
      } else {
        var l :| 0 <= l < |f.visibleWhen| && f.visibleWhen[l] == c;
        assert GoodCondition(env, at, i, f.visibleWhen[l]);
      }
    }
  }

  // ---- acceptance ----

  // The checker, shown the field with the condition's value and nothing to hide it, finds nothing invalid.
  predicate Tolerated(env: Env, f: Field, e: Scalar) {
    var props := [(f.name, ScalarValue(e))];
    Issue(InvalidProp, [], f.name) !in FieldIssues(env, WithoutConditions(f), ScalarValue(e), props, [])
  }

  lemma ToleratedExactly(env: Env, f: Field, e: Scalar)
    ensures Tolerated(env, f, e) <==> (f.required && e == SStr([])) || Fits(env, f.kind, ScalarValue(e))
  {
    hide Breaks, ItemsFrom;
    var (bare, v) := (WithoutConditions(f), ScalarValue(e));
    var props := [(f.name, v)];
    FieldReports(env, bare, props, []);
    BreaksIsNoFit(env, f.kind, v);
    KindFits(env, f, v);
    assert Get(props, f.name) == v && Found(bare, props) == v && Shown(bare, props);
  }

  // Forgetting conditions changes what fits a kind at no value but an array's items.
  lemma KindFits(env: Env, f: Field, v: Value)
    ensures Fits(env, WithoutConditions(f).kind, v) == Fits(env, f.kind, v)
    ensures Breaks(env, WithoutConditions(f).kind, v) == Breaks(env, f.kind, v)
  {
  }

  // The empty text is one of the kind's own; a pattern is asked about it.
  predicate TakesEmpty(env: Env, kind: Kind) {
    match kind
    case Pattern(p) => p == [] || env.matches([], p)
    case Select(options) => [] in options
    case _ => kind.PlainText?
  }

  // A condition on field i names one other field, of a scalar kind, and compares it with a value that the checker
  // tolerates there.
  predicate Sensible(env: Env, schema: seq<Field>, i: nat, c: Condition)
    requires i < |schema|
  {
    exists f <- schema ::
      && f.name == c.name && c.name != schema[i].name
      && !f.kind.RichText? && !f.kind.Array?
      && (c.expected == SStr([]) ==> TakesEmpty(env, f.kind))
      && Tolerated(env, f, c.expected)
  }

  lemma SensibleExactly(env: Env, schema: seq<Field>, i: nat, c: Condition)
    requires i < |schema|
    ensures GoodCondition(env, schema, i, c) <==> Sensible(env, schema, i, c)
  {
    hide Tolerated, Fits, ConditionOk;
    forall f | f in schema
      ensures ConditionOk(env, f.kind, c.expected) <==>
        && !f.kind.RichText? && !f.kind.Array?
        && (c.expected == SStr([]) ==> TakesEmpty(env, f.kind))
        && Tolerated(env, f, c.expected)
    {
      OneCondition(env, f, c.expected);
    }
    if GoodCondition(env, schema, i, c) {
      var j :| 0 <= j < |schema| && schema[j].name == c.name && ConditionOk(env, schema[j].kind, c.expected);
      assert schema[j] in schema;
    }
    if Sensible(env, schema, i, c) {
      var f :| f in schema && f.name == c.name && ConditionOk(env, f.kind, c.expected);
      var j :| 0 <= j < |schema| && schema[j] == f;
    }
  }

  lemma OneCondition(env: Env, f: Field, e: Scalar)
    ensures ConditionOk(env, f.kind, e) <==>
      && !f.kind.RichText? && !f.kind.Array?
      && (e == SStr([]) ==> TakesEmpty(env, f.kind))
      && Tolerated(env, f, e)
  {
    hide Tolerated;
    ToleratedExactly(env, f, e);
  }

  /** A condition list is accepted exactly when its names are distinct and every condition is sensible. */
  lemma ConditionsAcceptedExactly(env: Env, schema: seq<Field>, i: nat, cs: seq<Condition>)
    requires i < |schema|
    ensures GoodConditions(env, schema, i, cs) <==>
      DistinctConditions(cs) && forall c <- cs :: Sensible(env, schema, i, c)
  {
    hide Sensible, GoodCondition;
    forall c ensures GoodCondition(env, schema, i, c) <==> Sensible(env, schema, i, c) {
      SensibleExactly(env, schema, i, c);
    }
    assert forall k :: 0 <= k < |cs| ==> cs[k] in cs;
    assert forall c <- cs :: exists k :: 0 <= k < |cs| && cs[k] == c;
  }
}
