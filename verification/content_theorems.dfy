/** What removing conditions, definitions or context does to the issue list. */
module ContentTheorems {
  import opened Common
  import opened ContentContract
  import S = Subsequences

  // ---- removing conditions ----

  function WithoutConditions(f: Field): Field {
    var bare := f.(hiddenWhen := [], visibleWhen := []);
    if f.kind.Array? then bare.(kind := Array(WithoutSchemaConditions(f.kind.itemSchema), f.kind.itemDefault))
    else bare
  }

  function WithoutSchemaConditions(schema: seq<Field>): (r: seq<Field>)
    ensures |r| == |schema|
    ensures forall i :: 0 <= i < |r| ==> r[i] == WithoutConditions(schema[i])
  {
    if schema == [] then [] else [WithoutConditions(schema[0])] + WithoutSchemaConditions(schema[1..])
  }

  lemma BareField(env: Env, f: Field, v: Value, props: seq<(Text, Value)>)
    ensures var bare := WithoutConditions(f);
      bare.name == f.name && bare.required == f.required && bare.default == f.default
      && !Hidden(bare, props) && Effective(bare, v) == Effective(f, v)
      && Fits(env, bare.kind, v) == Fits(env, f.kind, v) && bare.kind.Array? == f.kind.Array?
  {
  }

  lemma {:induction false} PresentShrinks(env: Env, f: Field, v: Value, path: Path)
    ensures S.Subsequence(Present(env, f, v, path), Present(env, WithoutConditions(f), v, path))
    decreases f, 1, 0
  {
    hide Fits, WithoutConditions;
    BareField(env, f, v, []);
    S.Same(Present(env, f, v, path));
    if f.kind.Array? && Fits(env, f.kind, v) {
      assert v.List? by {
        ArrayFitsLists(env, f.kind, v);
      }
      ItemsShrink(env, f, v.items, 0, path);
    }
  }

  lemma ArrayFitsLists(env: Env, kind: Kind, v: Value)
    requires kind.Array? && Fits(env, kind, v)
    ensures v.List?
  {
  }

  lemma {:induction false} ItemsShrink(env: Env, f: Field, items: seq<Value>, i: nat, path: Path)
    requires f.kind.Array?
    ensures S.Subsequence(ItemsFrom(env, f, items, i, path), ItemsFrom(env, WithoutConditions(f), items, i, path))
    decreases f, 0, |items| - i
  {
    hide SchemaIssues;
    if i < |items| {
      var own := [Issue(InvalidProp, path + [Item(i)], f.name)];
      S.Same(own);
      ItemsShrink(env, f, items, i + 1, path);
      var tail := ItemsFrom(env, f, items, i + 1, path);
      var tail' := ItemsFrom(env, WithoutConditions(f), items, i + 1, path);
      if items[i].Record? {
        var fields := items[i].fields;
        SchemaShrinks(env, f.kind.itemSchema, fields, path + [Item(i)]);
        S.Concat(SchemaIssues(env, f.kind.itemSchema, fields, path + [Item(i)]),
                 SchemaIssues(env, WithoutSchemaConditions(f.kind.itemSchema), fields, path + [Item(i)]), tail, tail');
      } else {
        S.Concat(own, own, tail, tail');
      }
    }
  }

  lemma {:induction false} FieldShrinks(env: Env, f: Field, v: Value, props: seq<(Text, Value)>, path: Path)
    ensures S.Subsequence(FieldIssues(env, f, v, props, path), FieldIssues(env, WithoutConditions(f), v, props, path))
    decreases f, 2, 0
  {
    hide WithoutConditions, Present, Hidden, Effective;
    BareField(env, f, v, props);
    S.Same(FieldIssues(env, f, v, props, path));
    if Effective(f, v) != Undefined {
      PresentShrinks(env, f, Effective(f, v), path);
    }
  }

  lemma {:induction false} FieldsShrink(env: Env, schema: seq<Field>, props: seq<(Text, Value)>, path: Path)
    ensures S.Subsequence(FieldsIssues(env, schema, props, path),
                          FieldsIssues(env, WithoutSchemaConditions(schema), props, path))
    decreases schema, 0, 0
  {
    hide FieldIssues, WithoutConditions;
    if schema != [] {
      var f := schema[0];
      BareField(env, f, Undefined, props);
      FieldShrinks(env, f, Get(props, f.name), props, path + [Prop(f.name)]);
      FieldsShrink(env, schema[1..], props, path);
      assert WithoutSchemaConditions(schema)[1..] == WithoutSchemaConditions(schema[1..]);
      S.Concat(FieldIssues(env, f, Get(props, f.name), props, path + [Prop(f.name)]),
               FieldIssues(env, WithoutConditions(f), Get(props, f.name), props, path + [Prop(f.name)]),
               FieldsIssues(env, schema[1..], props, path),
               FieldsIssues(env, WithoutSchemaConditions(schema[1..]), props, path));
    }
  }

  lemma {:induction false} UnknownPropsSame(schema: seq<Field>, bare: seq<Field>, props: seq<(Text, Value)>, path: Path)
    requires |schema| == |bare| && forall i :: 0 <= i < |schema| ==> schema[i].name == bare[i].name
    ensures UnknownProps(schema, props, path) == UnknownProps(bare, props, path)
  {
    if props != [] {
      UnknownPropsSame(schema, bare, props[1..], path);
      var name := props[0].0;
      assert Known(schema, name) ==> Known(bare, name) by {
        if Known(schema, name) {
          var i :| 0 <= i < |schema| && schema[i].name == name;
          assert bare[i].name == name;
        }
      }
      assert Known(bare, name) ==> Known(schema, name) by {
        if Known(bare, name) {
          var i :| 0 <= i < |bare| && bare[i].name == name;
          assert schema[i].name == name;
        }
      }
    }
  }

  /** Removing conditions, at every nesting depth, only adds issues, and keeps the order of the others. */
  lemma {:induction false} SchemaShrinks(env: Env, schema: seq<Field>, props: seq<(Text, Value)>, path: Path)
    ensures S.Subsequence(SchemaIssues(env, schema, props, path),
                          SchemaIssues(env, WithoutSchemaConditions(schema), props, path))
    decreases schema, 1, 0
  {
    hide FieldsIssues, UnknownProps;
    FieldsShrink(env, schema, props, path);
    UnknownPropsSame(schema, WithoutSchemaConditions(schema), props, path);
    var unknown := UnknownProps(schema, props, path);
    S.Same(unknown);
    S.Concat(unknown, unknown, FieldsIssues(env, schema, props, path),
             FieldsIssues(env, WithoutSchemaConditions(schema), props, path));
  }

  // ---- removing a definition ----

  function Errors(issues: seq<Issue>): seq<Issue> {
    if issues == [] then []
    else (if IsError(issues[0].code) then [issues[0]] else []) + Errors(issues[1..])
  }

  lemma {:induction false} ErrorsConcat(a: seq<Issue>, b: seq<Issue>)
    ensures Errors(a + b) == Errors(a) + Errors(b)
  {
    if a == [] {
      assert a + b == b;
    } else {
      assert (a + b)[1..] == a[1..] + b;
      ErrorsConcat(a[1..], b);
    }
  }

  /**
   * Forgetting a definition turns its blocks into warnings and changes no other error: the errors that
   * remain are a subsequence of the errors before.
   */
  lemma {:induction false} ForgettingKeepsAccepted(env: Env, b: Block, path: Path, defs: map<Text, Definition>,
                                                   gone: Text)
    ensures S.Subsequence(Errors(BlockIssues(env, b, path, defs - {gone})), Errors(BlockIssues(env, b, path, defs)))
    decreases b, 1
  {
    hide SchemaIssues, ChildCountIssues, ChildTypeIssues;
    var own, own' := OwnIssues(env, b, path, defs), OwnIssues(env, b, path, defs - {gone});
    var below := BlocksIssues(env, b.children, 0, path, defs);
    var below' := BlocksIssues(env, b.children, 0, path, defs - {gone});
    S.Same(Errors(own));
    assert S.Subsequence(Errors(own'), Errors(own));
    ForgettingKeepsChildren(env, b.children, 0, path, defs, gone);
    ErrorsConcat(own, below);
    ErrorsConcat(own', below');
    S.Concat(Errors(own'), Errors(own), Errors(below'), Errors(below));
  }

  lemma {:induction false} ForgettingKeepsChildren(env: Env, bs: seq<Block>, i: nat, path: Path,
                                                   defs: map<Text, Definition>, gone: Text)
    ensures S.Subsequence(Errors(BlocksIssues(env, bs, i, path, defs - {gone})),
                          Errors(BlocksIssues(env, bs, i, path, defs)))
    decreases bs, 0, |bs| - i
  {
    hide OwnIssues;
    if i < |bs| {
      var p := path + [Child(i)];
      var head, head' := BlockIssues(env, bs[i], p, defs), BlockIssues(env, bs[i], p, defs - {gone});
      var rest, rest' := BlocksIssues(env, bs, i + 1, path, defs), BlocksIssues(env, bs, i + 1, path, defs - {gone});
      ForgettingKeepsAccepted(env, bs[i], p, defs, gone);
      ForgettingKeepsChildren(env, bs, i + 1, path, defs, gone);
      ErrorsConcat(head, rest);
      ErrorsConcat(head', rest');
      S.Concat(Errors(head'), Errors(head), Errors(rest'), Errors(rest));
    }
  }

  // ---- the place of a value does not decide its issues ----

  function Codes(issues: seq<Issue>): seq<Code> {
    seq(|issues|, i requires 0 <= i < |issues| => issues[i].code)
  }

  lemma CodesConcat(a: seq<Issue>, b: seq<Issue>)
    ensures Codes(a + b) == Codes(a) + Codes(b)
  {
  }

  lemma {:induction false} PresentAnywhere(env: Env, f: Field, v: Value, p: Path, q: Path)
    ensures Codes(Present(env, f, v, p)) == Codes(Present(env, f, v, q))
    decreases f, 1, 0
  {
    hide ItemsFrom, Fits;
    if f.kind.Array? && Fits(env, f.kind, v) {
      ArrayFitsLists(env, f.kind, v);
      ItemsAnywhere(env, f, v.items, 0, p, q);
    }
  }

  lemma {:induction false} ItemsAnywhere(env: Env, f: Field, items: seq<Value>, i: nat, p: Path, q: Path)
    requires f.kind.Array?
    ensures Codes(ItemsFrom(env, f, items, i, p)) == Codes(ItemsFrom(env, f, items, i, q))
    decreases f, 0, |items| - i
  {
    hide SchemaIssues;
    if i < |items| {
      ItemsAnywhere(env, f, items, i + 1, p, q);
      var invalid := (path: Path) => [Issue(InvalidProp, path + [Item(i)], f.name)];
      CodesConcat(invalid(p), ItemsFrom(env, f, items, i + 1, p));
      CodesConcat(invalid(q), ItemsFrom(env, f, items, i + 1, q));
      if items[i].Record? {
        var (schema, fields) := (f.kind.itemSchema, items[i].fields);
        SchemaAnywhere(env, schema, fields, p + [Item(i)], q + [Item(i)]);
        CodesConcat(SchemaIssues(env, schema, fields, p + [Item(i)]), ItemsFrom(env, f, items, i + 1, p));
        CodesConcat(SchemaIssues(env, schema, fields, q + [Item(i)]), ItemsFrom(env, f, items, i + 1, q));
      } else {
        assert Codes(invalid(p)) == [InvalidProp] == Codes(invalid(q));
      }
    }
  }

  lemma {:induction false} UnknownAnywhere(schema: seq<Field>, props: seq<(Text, Value)>, p: Path, q: Path)
    ensures Codes(UnknownProps(schema, props, p)) == Codes(UnknownProps(schema, props, q))
  {
    hide Known;
    if props != [] {
      UnknownAnywhere(schema, props[1..], p, q);
      var name := props[0].0;
      var unknown := (path: Path) =>
        if Known(schema, name) then [] else [Issue(UnknownProp, path + [Prop(name)], name)];
      CodesConcat(unknown(p), UnknownProps(schema, props[1..], p));
      CodesConcat(unknown(q), UnknownProps(schema, props[1..], q));
      assert Codes(unknown(p)) == Codes(unknown(q));
    }
  }

  lemma {:induction false} FieldsAnywhere(env: Env, schema: seq<Field>, props: seq<(Text, Value)>, p: Path, q: Path)
    ensures Codes(FieldsIssues(env, schema, props, p)) == Codes(FieldsIssues(env, schema, props, q))
    decreases schema, 0, 0
  {
    hide Present, Hidden, Effective;
    if schema != [] {
      var f := schema[0];
      var v := Get(props, f.name);
      PresentAnywhere(env, f, Effective(f, v), p + [Prop(f.name)], q + [Prop(f.name)]);
      FieldsAnywhere(env, schema[1..], props, p, q);
      CodesConcat(FieldIssues(env, f, v, props, p + [Prop(f.name)]), FieldsIssues(env, schema[1..], props, p));
      CodesConcat(FieldIssues(env, f, v, props, q + [Prop(f.name)]), FieldsIssues(env, schema[1..], props, q));
    }
  }

  /** The codes a schema reports do not depend on where the props object stands. */
  lemma {:induction false} SchemaAnywhere(env: Env, schema: seq<Field>, props: seq<(Text, Value)>, p: Path, q: Path)
    ensures Codes(SchemaIssues(env, schema, props, p)) == Codes(SchemaIssues(env, schema, props, q))
    decreases schema, 1, 0
  {
    hide FieldsIssues, UnknownProps;
    UnknownAnywhere(schema, props, p, q);
    FieldsAnywhere(env, schema, props, p, q);
    CodesConcat(UnknownProps(schema, props, p), FieldsIssues(env, schema, props, p));
    CodesConcat(UnknownProps(schema, props, q), FieldsIssues(env, schema, props, q));
  }
}
