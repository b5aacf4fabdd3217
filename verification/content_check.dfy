/** The checker as the source runs it: recursive procedures that push into one shared issue list. */
module ContentCheck {
  import opened Common
  import opened ContentContract

  class IssueList {
    var issues: seq<Issue>

    constructor ()
      ensures issues == []
    {
      issues := [];
    }

    method Push(code: Code, path: Path, prop: Text)
      modifies this
      ensures issues == old(issues) + [Issue(code, path, prop)]
    {
      issues := issues + [Issue(code, path, prop)];
    }
  }

  method AnalyzeFieldValue(env: Env, f: Field, v: Value, props: seq<(Text, Value)>, path: Path, out: IssueList)
    modifies out
    ensures out.issues == old(out.issues) + FieldIssues(env, f, v, props, path)
    decreases f, 2, if v == Undefined then 1 else 0
  {
    hide SchemaIssues, Fits, Hidden;
    if Hidden(f, props) {
      return;
    }
    if v == Undefined {
      if f.default.Some? && f.default.value != Undefined {
        AnalyzeFieldValue(env, f, f.default.value, props, path, out);
      } else if f.required {
        out.Push(MissingRequired, path, f.name);
      }
      return;
    }
    if f.required && IsMissing(v) {
      out.Push(MissingRequired, path, f.name);
      return;
    }
    var reason := !Fits(env, f.kind, v);
    if f.kind.Array? && v.List? {
      AnalyzeItems(env, f, v.items, path, out);
    }
    if reason {
      out.Push(InvalidProp, path, f.name);
    }
    assert f.kind.Array? ==> (reason <==> !v.List?) by {
      ArrayFits(env, f.kind, v);
    }
  }

  lemma ArrayFits(env: Env, kind: Kind, v: Value)
    ensures kind.Array? ==> (Fits(env, kind, v) <==> v.List?)
  {
  }

  method AnalyzeItems(env: Env, f: Field, items: seq<Value>, path: Path, out: IssueList)
    requires f.kind.Array?
    modifies out
    ensures out.issues == old(out.issues) + ItemsFrom(env, f, items, 0, path)
    decreases f, 1, 0
  {
    hide SchemaIssues;
    var i := 0;
    while i < |items|
      invariant i <= |items|
      invariant out.issues + ItemsFrom(env, f, items, i, path) == old(out.issues) + ItemsFrom(env, f, items, 0, path)
    {
      ghost var before := out.issues;
      if !items[i].Record? {
        out.Push(InvalidProp, path + [Item(i)], f.name);
      } else {
        AnalyzePropSchema(env, f.kind.itemSchema, items[i].fields, path + [Item(i)], out);
      }
      ghost var found := out.issues[|before|..];
      assert out.issues == before + found;
      assert before + (found + ItemsFrom(env, f, items, i + 1, path))
        == out.issues + ItemsFrom(env, f, items, i + 1, path);
      i := i + 1;
    }
    assert out.issues + [] == out.issues;
  }

  method AnalyzePropSchema(env: Env, schema: seq<Field>, props: seq<(Text, Value)>, path: Path, out: IssueList)
    modifies out
    ensures out.issues == old(out.issues) + SchemaIssues(env, schema, props, path)
    decreases schema, 2, 0
  {
    hide FieldIssues, Known;
    var i := 0;
    while i < |props|
      invariant i <= |props|
      invariant out.issues + UnknownProps(schema, props[i..], path)
        == old(out.issues) + UnknownProps(schema, props, path)
    {
      ghost var before := out.issues;
      assert props[i..][1..] == props[i + 1..];
      if !Known(schema, props[i].0) {
        out.Push(UnknownProp, path + [Prop(props[i].0)], props[i].0);
      }
      ghost var found := out.issues[|before|..];
      assert out.issues == before + found;
      assert before + (found + UnknownProps(schema, props[i + 1..], path))
        == out.issues + UnknownProps(schema, props[i + 1..], path);
      i := i + 1;
    }
    assert props[i..] == [] && out.issues + [] == out.issues;
    ghost var warned := out.issues;
    i := 0;
    while i < |schema|
      invariant i <= |schema|
      invariant out.issues + FieldsIssues(env, schema[i..], props, path)
        == warned + FieldsIssues(env, schema, props, path)
    {
      ghost var before := out.issues;
      assert schema[i..][1..] == schema[i + 1..] && schema[i..][0] == schema[i];
      AnalyzeFieldValue(env, schema[i], Get(props, schema[i].name), props, path + [Prop(schema[i].name)], out);
      ghost var found := FieldIssues(env, schema[i], Get(props, schema[i].name), props, path + [Prop(schema[i].name)]);
      assert before + (found + FieldsIssues(env, schema[i + 1..], props, path))
        == out.issues + FieldsIssues(env, schema[i + 1..], props, path);
      i := i + 1;
    }
    assert schema[i..] == [] && out.issues + [] == out.issues;
    assert out.issues == old(out.issues) + UnknownProps(schema, props, path) + FieldsIssues(env, schema, props, path);
  }

  method AnalyzeChildCount(d: Definition, n: nat, path: Path, out: IssueList)
    modifies out
    ensures out.issues == old(out.issues) + ChildCountIssues(d, n, path)
  {
    if !d.acceptsChildren && n > 0 {
      out.Push(UnexpectedChildren, path + [Children], []);
    }
    if d.minChildren.Some? && n < d.minChildren.value {
      out.Push(TooFewChildren, path + [Children], []);
    }
    if d.maxChildren.Some? && n > d.maxChildren.value {
      out.Push(TooManyChildren, path + [Children], []);
    }
  }

  method AnalyzeChildTypes(d: Definition, children: seq<Block>, path: Path, out: IssueList)
    modifies out
    ensures out.issues == old(out.issues) + ChildTypeIssues(d, children, 0, path)
  {
    if d.allowedChildTypes != [] && ANY !in d.allowedChildTypes {
      var i := 0;
      while i < |children|
        invariant i <= |children|
        invariant out.issues + ChildTypeIssues(d, children, i, path)
          == old(out.issues) + ChildTypeIssues(d, children, 0, path)
      {
        ghost var before := out.issues;
        if children[i].kind !in d.allowedChildTypes {
          out.Push(DisallowedChildType, path + [Child(i)], []);
        }
        ghost var found := out.issues[|before|..];
        assert out.issues == before + found;
        assert before + (found + ChildTypeIssues(d, children, i + 1, path))
          == out.issues + ChildTypeIssues(d, children, i + 1, path);
        i := i + 1;
      }
      assert out.issues + [] == out.issues;
    }
  }

  method AnalyzeOwn(env: Env, b: Block, path: Path, defs: map<Text, Definition>, out: IssueList)
    modifies out
    ensures out.issues == old(out.issues) + OwnIssues(env, b, path, defs)
  {
    hide SchemaIssues, ChildCountIssues, ChildTypeIssues;
    if b.kind !in defs {
      out.Push(UnknownBlockType, path, []);
    } else {
      var d := defs[b.kind];
      AnalyzePropSchema(env, d.schema, b.props, path + [Props], out);
      AnalyzeChildCount(d, |b.children|, path, out);
      AnalyzeChildTypes(d, b.children, path, out);
    }
  }

  method AnalyzeBlock(env: Env, b: Block, path: Path, defs: map<Text, Definition>, out: IssueList)
    modifies out
    ensures out.issues == old(out.issues) + BlockIssues(env, b, path, defs)
    decreases b
  {
    hide OwnIssues;
    AnalyzeOwn(env, b, path, defs, out);
    ghost var own := out.issues;
    var i := 0;
    while i < |b.children|
      invariant i <= |b.children|
      invariant out.issues + BlocksIssues(env, b.children, i, path, defs)
        == own + BlocksIssues(env, b.children, 0, path, defs)
    {
      ghost var before := out.issues;
      AnalyzeBlock(env, b.children[i], path + [Child(i)], defs, out);
      assert before + (BlockIssues(env, b.children[i], path + [Child(i)], defs)
                       + BlocksIssues(env, b.children, i + 1, path, defs))
        == out.issues + BlocksIssues(env, b.children, i + 1, path, defs);
      i := i + 1;
    }
    assert out.issues + [] == out.issues;
  }
}
