/** What the checker reports: each issue exactly where its rule is broken, at every depth. */
module ContentReports {
  import opened Common
  import opened Utf8
  import opened ContentContract

  // ---- the rules, by value ----

  // The field is shown: its visibility conditions hold, and some hiding condition does not.
  predicate Shown(f: Field, props: seq<(Text, Value)>) {
    && (forall c <- f.visibleWhen :: Get(props, c.name) == ScalarValue(c.expected))
    && (f.hiddenWhen == [] || exists c <- f.hiddenWhen :: Get(props, c.name) != ScalarValue(c.expected))
  }

  // What the checker finds for a field: the prop, or the default of an absent one.
  function Found(f: Field, props: seq<(Text, Value)>): Value {
    match Get(props, f.name)
    case Undefined => if f.default.Some? then f.default.value else Undefined
    case v => v
  }

  // Absent, null, or an empty text.
  predicate Nothing(v: Value) {
    match v
    case Undefined => true
    case Null => true
    case Str(s) => s == []
    case _ => false
  }

  // The value is not one the kind of the field takes.
  predicate Breaks(env: Env, kind: Kind, v: Value) {
    match kind
    case Number(min, max, step) =>
      (match v
       case Num(n) =>
         || (min.Some? && n < min.value)
         || (max.Some? && max.value < n)
         || (step.Some? && !env.aligned(n, step.value, if min.Some? then min.value else 0.0))
       case _ => true)
    case Boolean => (match v case Bool(_) => false case _ => true)
    case Select(options) => (match v case Str(s) => s !in options case _ => true)
    case Pattern(p) => (match v case Str(s) => p != [] && s != [] && !env.matches(s, p) case _ => true)
    case PlainText => (match v case Str(_) => false case _ => true)
    case RichText => !env.richText(v)
    case Array(_, _) => (match v case List(_) => false case _ => true)
  }

  predicate Missing(f: Field, props: seq<(Text, Value)>) {
    Shown(f, props) && f.required && Nothing(Found(f, props))
  }

  predicate Invalid(env: Env, f: Field, props: seq<(Text, Value)>) {
    && Shown(f, props) && Found(f, props) != Undefined && !(f.required && Nothing(Found(f, props)))
    && Breaks(env, f.kind, Found(f, props))
  }

  lemma ShownIsNotHidden(f: Field, props: seq<(Text, Value)>)
    ensures Shown(f, props) <==> !Hidden(f, props)
  {
    assert forall i :: 0 <= i < |f.visibleWhen| ==> f.visibleWhen[i] in f.visibleWhen;
    assert forall i :: 0 <= i < |f.hiddenWhen| ==> f.hiddenWhen[i] in f.hiddenWhen;
  }

  lemma BreaksIsNoFit(env: Env, kind: Kind, v: Value)
    ensures Breaks(env, kind, v) <==> !Fits(env, kind, v)
  {
  }

  // ---- paths ----

  predicate Under(path: Path, x: Issue) { path <= x.path }

  predicate Below(path: Path, x: Issue) { path <= x.path && |x.path| > |path| }

  lemma {:induction false} ItemsBelow(env: Env, f: Field, items: seq<Value>, i: nat, path: Path)
    requires f.kind.Array?
    ensures forall x <- ItemsFrom(env, f, items, i, path) :: Below(path, x)
    decreases f, 0, |items| - i
  {
    if i < |items| {
      ItemsBelow(env, f, items, i + 1, path);
      if items[i].Record? {
        SchemaBelow(env, f.kind.itemSchema, items[i].fields, path + [Item(i)]);
      }
    }
  }

  lemma {:induction false} FieldUnder(env: Env, f: Field, v: Value, props: seq<(Text, Value)>, path: Path)
    ensures forall x <- FieldIssues(env, f, v, props, path) :: Under(path, x)
    decreases f, 2, 0
  {
    hide ItemsFrom, Hidden;
    var w := Effective(f, v);
    if f.kind.Array? && w.List? {
      ItemsBelow(env, f, w.items, 0, path);
      assert Present(env, f, w, path) == ItemsFrom(env, f, w.items, 0, path) || |Present(env, f, w, path)| == 1;
    }
  }

  lemma {:induction false} FieldsBelow(env: Env, schema: seq<Field>, props: seq<(Text, Value)>, path: Path)
    ensures forall x <- FieldsIssues(env, schema, props, path) :: Below(path, x)
    decreases schema, 0, 0
  {
    hide FieldIssues;
    if schema != [] {
      FieldUnder(env, schema[0], Get(props, schema[0].name), props, path + [Prop(schema[0].name)]);
      FieldsBelow(env, schema[1..], props, path);
    }
  }

  lemma {:induction false} UnknownBelow(schema: seq<Field>, props: seq<(Text, Value)>, path: Path)
    ensures forall x <- UnknownProps(schema, props, path) :: Below(path, x) && x.code == UnknownProp
  {
    if props != [] {
      UnknownBelow(schema, props[1..], path);
    }
  }

  lemma {:induction false} SchemaBelow(env: Env, schema: seq<Field>, props: seq<(Text, Value)>, path: Path)
    ensures forall x <- SchemaIssues(env, schema, props, path) :: Below(path, x)
    decreases schema, 1, 0
  {
    hide FieldsIssues, UnknownProps;
    UnknownBelow(schema, props, path);
    FieldsBelow(env, schema, props, path);
  }

  // ---- one field ----

  /** Each code is reported at the field itself exactly when its rule is broken there. */
  lemma FieldReports(env: Env, f: Field, props: seq<(Text, Value)>, path: Path)
    ensures var own := FieldIssues(env, f, Get(props, f.name), props, path);
      && (Issue(MissingRequired, path, f.name) in own <==> Missing(f, props))
      && (Issue(InvalidProp, path, f.name) in own <==> Invalid(env, f, props))
      && (forall x <- own :: x.path == path ==>
            x.prop == f.name && (x.code == MissingRequired || x.code == InvalidProp))
  {
    hide Breaks, Hidden, Shown, ItemsFrom, Get;
    ShownIsNotHidden(f, props);
    var v := Effective(f, Get(props, f.name));
    assert v == Found(f, props) && IsMissing(v) == Nothing(v);
    BreaksIsNoFit(env, f.kind, v);
    if f.kind.Array? && v.List? {
      ItemsBelow(env, f, v.items, 0, path);
      assert forall x <- ItemsFrom(env, f, v.items, 0, path) :: x.path != path;
    }
  }

  // The issues of a schema's fields are those of each field.
  lemma {:induction false} FieldsMembers(env: Env, schema: seq<Field>, props: seq<(Text, Value)>, path: Path, x: Issue)
    ensures x in FieldsIssues(env, schema, props, path) <==>
      exists j :: 0 <= j < |schema| &&
        x in FieldIssues(env, schema[j], Get(props, schema[j].name), props, path + [Prop(schema[j].name)])
  {
    hide FieldIssues;
    if schema != [] {
      FieldsMembers(env, schema[1..], props, path, x);
      assert forall j :: 0 < j < |schema| ==> schema[j] == schema[1..][j - 1];
      if j :| 0 <= j < |schema[1..]| && x in FieldIssues(env, schema[1..][j], Get(props, schema[1..][j].name), props,
                                                         path + [Prop(schema[1..][j].name)]) {
        assert schema[j + 1] == schema[1..][j];
      }
    }
  }

  lemma {:induction false} UnknownMembers(schema: seq<Field>, props: seq<(Text, Value)>, path: Path, x: Issue)
    ensures x in UnknownProps(schema, props, path) <==>
      exists k :: 0 <= k < |props| && !Known(schema, props[k].0)
                  && x == Issue(UnknownProp, path + [Prop(props[k].0)], props[k].0)
  {
    hide Known;
    if props != [] {
      UnknownMembers(schema, props[1..], path, x);
      assert forall k :: 0 < k < |props| ==> props[k] == props[1..][k - 1];
      if k :| 0 <= k < |props[1..]| && !Known(schema, props[1..][k].0)
              && x == Issue(UnknownProp, path + [Prop(props[1..][k].0)], props[1..][k].0) {
        assert props[k + 1] == props[1..][k];
      }
    }
  }

  // An issue at a field's own path comes from a field of that name.
  lemma FieldOfIssue(env: Env, schema: seq<Field>, props: seq<(Text, Value)>, path: Path, name: Text, code: Code)
    ensures var x := Issue(code, path + [Prop(name)], name);
      x in FieldsIssues(env, schema, props, path) <==>
        exists j :: 0 <= j < |schema| && schema[j].name == name
                    && x in FieldIssues(env, schema[j], Get(props, name), props, path + [Prop(name)])
  {
    hide FieldIssues, FieldsIssues;
    var x := Issue(code, path + [Prop(name)], name);
    FieldsMembers(env, schema, props, path, x);
    forall j | 0 <= j < |schema|
               && x in FieldIssues(env, schema[j], Get(props, schema[j].name), props, path + [Prop(schema[j].name)])
      ensures schema[j].name == name
    {
      FieldUnder(env, schema[j], Get(props, schema[j].name), props, path + [Prop(schema[j].name)]);
      assert (path + [Prop(schema[j].name)])[|path|] == x.path[|path|];
    }
  }

  // ---- a schema ----

  /**
   * A props object is reported for a missing, an invalid or an unknown prop exactly when a field of that name is
   * shown, required and empty; when one is shown with a value outside its kind; when no field has the name.
   */
  lemma SchemaReports(env: Env, schema: seq<Field>, props: seq<(Text, Value)>, path: Path, name: Text)
    ensures var (issues, at) := (SchemaIssues(env, schema, props, path), path + [Prop(name)]);
      && (Issue(MissingRequired, at, name) in issues <==>
            exists j :: 0 <= j < |schema| && schema[j].name == name && Missing(schema[j], props))
      && (Issue(InvalidProp, at, name) in issues <==>
            exists j :: 0 <= j < |schema| && schema[j].name == name && Invalid(env, schema[j], props))
      && (Issue(UnknownProp, at, name) in issues <==>
            (forall j :: 0 <= j < |schema| ==> schema[j].name != name) && exists p <- props :: p.0 == name)
  {
    hide FieldIssues, FieldsIssues, UnknownProps, Missing, Invalid, Get;
    var at := path + [Prop(name)];
    UnknownBelow(schema, props, path);
    FieldOfIssue(env, schema, props, path, name, MissingRequired);
    FieldOfIssue(env, schema, props, path, name, InvalidProp);
    FieldOfIssue(env, schema, props, path, name, UnknownProp);
    forall j | 0 <= j < |schema| && schema[j].name == name
      ensures var own := FieldIssues(env, schema[j], Get(props, name), props, at);
        && (Issue(MissingRequired, at, name) in own <==> Missing(schema[j], props))
        && (Issue(InvalidProp, at, name) in own <==> Invalid(env, schema[j], props))
        && Issue(UnknownProp, at, name) !in own
    {
      FieldReports(env, schema[j], props, at);
    }
    UnknownNames(schema, props, path, name);
  }

  lemma UnknownNames(schema: seq<Field>, props: seq<(Text, Value)>, path: Path, name: Text)
    ensures Issue(UnknownProp, path + [Prop(name)], name) in UnknownProps(schema, props, path) <==>
      (forall j :: 0 <= j < |schema| ==> schema[j].name != name) && exists p <- props :: p.0 == name
  {
    hide UnknownProps;
    var x := Issue(UnknownProp, path + [Prop(name)], name);
    UnknownMembers(schema, props, path, x);
    if p :| p in props && p.0 == name {
      var k :| 0 <= k < |props| && props[k] == p;
    }
  }

  // ---- items of array fields ----

  // The items of a shown array field that is given a list.
  predicate Listed(f: Field, props: seq<(Text, Value)>) {
    f.kind.Array? && Shown(f, props) && Found(f, props).List?
  }

  lemma {:induction false} ItemsMembers(env: Env, f: Field, items: seq<Value>, i: nat, path: Path, x: Issue)
    requires f.kind.Array?
    ensures x in ItemsFrom(env, f, items, i, path) <==>
      exists k :: i <= k < |items| &&
        (if items[k].Record? then x in SchemaIssues(env, f.kind.itemSchema, items[k].fields, path + [Item(k)])
         else x == Issue(InvalidProp, path + [Item(k)], f.name))
    decreases |items| - i
  {
    hide SchemaIssues;
    if i < |items| {
      ItemsMembers(env, f, items, i + 1, path, x);
    }
  }

  /**
   * Every item of a listed array field is checked: an item that is no record is reported, and all issues of a record
   * are issues of the whole.
   */
  lemma ItemReports(env: Env, schema: seq<Field>, j: nat, props: seq<(Text, Value)>, path: Path, k: nat)
    requires j < |schema| && Listed(schema[j], props) && k < |Found(schema[j], props).items|
    ensures var (f, issues) := (schema[j], SchemaIssues(env, schema, props, path));
      var (item, at) := (Found(f, props).items[k], path + [Prop(f.name)] + [Item(k)]);
      && (!item.Record? ==> Issue(InvalidProp, at, f.name) in issues)
      && (item.Record? ==> forall x <- SchemaIssues(env, f.kind.itemSchema, item.fields, at) :: x in issues)
  {
    hide SchemaIssues, FieldsIssues, Shown, Hidden, Get, ItemsFrom;
    var (f, at) := (schema[j], path + [Prop(schema[j].name)]);
    var items := Found(f, props).items;
    ShownIsNotHidden(f, props);
    assert FieldIssues(env, f, Get(props, f.name), props, at) == ItemsFrom(env, f, items, 0, at);
    forall x | x in ItemsFrom(env, f, items, 0, at) ensures x in SchemaIssues(env, schema, props, path) {
      FieldsMembers(env, schema, props, path, x);
      FieldsArePart(env, schema, props, path, x);
    }
    forall x | if items[k].Record? then x in SchemaIssues(env, f.kind.itemSchema, items[k].fields, at + [Item(k)])
               else x == Issue(InvalidProp, at + [Item(k)], f.name)
      ensures x in ItemsFrom(env, f, items, 0, at)
    {
      ItemsMembers(env, f, items, 0, at, x);
    }
  }

  lemma FieldsArePart(env: Env, schema: seq<Field>, props: seq<(Text, Value)>, path: Path, x: Issue)
    requires x in FieldsIssues(env, schema, props, path)
    ensures x in SchemaIssues(env, schema, props, path)
  {
    hide FieldsIssues, UnknownProps;
  }

  // A place inside a props object: an item of a listed array field, or the object itself.
  datatype Spot = Spot(schema: seq<Field>, props: seq<(Text, Value)>, path: Path)

  function Enter(s: Spot, j: nat, k: nat): Option<Spot> {
    if j < |s.schema| && Listed(s.schema[j], s.props) && k < |Found(s.schema[j], s.props).items|
       && Found(s.schema[j], s.props).items[k].Record?
    then
      var f := s.schema[j];
      Some(Spot(f.kind.itemSchema, Found(f, s.props).items[k].fields, s.path + [Prop(f.name)] + [Item(k)]))
    else None
  }

  // Following fields and items, outermost first.
  function Follow(s: Spot, trail: seq<(nat, nat)>): Option<Spot>
    decreases |trail|
  {
    if trail == [] then Some(s)
    else
      match Enter(s, trail[0].0, trail[0].1)
      case None => None
      case Some(inner) => Follow(inner, trail[1..])
  }

  /** The issues of every nested props object, at any depth, are issues of the outermost one. */
  lemma {:induction false} NestedReports(env: Env, s: Spot, trail: seq<(nat, nat)>)
    requires Follow(s, trail).Some?
    ensures var inner := Follow(s, trail).value;
      forall x <- SchemaIssues(env, inner.schema, inner.props, inner.path) ::
        x in SchemaIssues(env, s.schema, s.props, s.path)
    decreases |trail|
  {
    hide SchemaIssues, Listed, Found;
    if trail != [] {
      var next := Enter(s, trail[0].0, trail[0].1).value;
      NestedReports(env, next, trail[1..]);
      ItemReports(env, s.schema, trail[0].0, s.props, s.path, trail[0].1);
    }
  }

  // ---- blocks ----

  lemma {:induction false} ChildrenMembers(env: Env, bs: seq<Block>, i: nat, path: Path, defs: map<Text, Definition>,
                                           x: Issue)
    ensures x in BlocksIssues(env, bs, i, path, defs) <==>
      exists k :: i <= k < |bs| && x in BlockIssues(env, bs[k], path + [Child(k)], defs)
    decreases |bs| - i
  {
    hide BlockIssues;
    if i < |bs| {
      ChildrenMembers(env, bs, i + 1, path, defs, x);
    }
  }

  // The block at a child path, and where it stands.
  function BlockAt(b: Block, ks: seq<nat>): Option<Block>
    decreases |ks|
  {
    if ks == [] then Some(b)
    else if ks[0] < |b.children| then BlockAt(b.children[ks[0]], ks[1..])
    else None
  }

  function ChildPath(path: Path, ks: seq<nat>): Path
    decreases |ks|
  {
    if ks == [] then path else ChildPath(path + [Child(ks[0])], ks[1..])
  }

  /** The issues of every block of a tree are issues of its root. */
  lemma {:induction false} DescendantReports(env: Env, b: Block, path: Path, defs: map<Text, Definition>,
                                             ks: seq<nat>)
    requires BlockAt(b, ks).Some?
    ensures forall x <- BlockIssues(env, BlockAt(b, ks).value, ChildPath(path, ks), defs) ::
      x in BlockIssues(env, b, path, defs)
    decreases |ks|
  {
    hide BlockIssues;
    if ks != [] {
      var (child, at) := (b.children[ks[0]], path + [Child(ks[0])]);
      DescendantReports(env, child, at, defs, ks[1..]);
      forall x | x in BlockIssues(env, child, at, defs) ensures x in BlockIssues(env, b, path, defs) {
        ChildrenMembers(env, b.children, 0, path, defs, x);
        ChildrenArePart(env, b, path, defs, x);
      }
    }
  }

  lemma ChildrenArePart(env: Env, b: Block, path: Path, defs: map<Text, Definition>, x: Issue)
    requires x in BlocksIssues(env, b.children, 0, path, defs)
    ensures x in BlockIssues(env, b, path, defs)
  {
    hide BlocksIssues, OwnIssues;
  }

  // The issue stands under the step after a path.
  predicate Via(path: Path, step: Step, x: Issue) { |x.path| > |path| && x.path[|path|] == step }

  lemma UnderIsVia(path: Path, step: Step, x: Issue)
    requires Under(path + [step], x)
    ensures Via(path, step, x)
  {
    assert (path + [step])[|path|] == x.path[|path|];
  }

  lemma {:induction false} BlockUnder(env: Env, b: Block, path: Path, defs: map<Text, Definition>)
    ensures forall x <- BlockIssues(env, b, path, defs) :: Under(path, x)
    decreases b, 1
  {
    hide OwnIssues;
    OwnUnder(env, b, path, defs);
    BlocksUnder(env, b.children, 0, path, defs);
  }

  lemma {:induction false} BlocksUnder(env: Env, bs: seq<Block>, i: nat, path: Path, defs: map<Text, Definition>)
    ensures forall x <- BlocksIssues(env, bs, i, path, defs) ::
      exists k :: i <= k < |bs| && Under(path + [Child(k)], x)
    decreases bs, 0, |bs| - i
  {
    if i < |bs| {
      BlockUnder(env, bs[i], path + [Child(i)], defs);
      BlocksUnder(env, bs, i + 1, path, defs);
    }
  }

  lemma {:induction false} TypesUnder(d: Definition, children: seq<Block>, i: nat, path: Path)
    ensures forall x :: x in ChildTypeIssues(d, children, i, path) <==>
      exists k :: i <= k < |children| && d.allowedChildTypes != [] && ANY !in d.allowedChildTypes
                  && children[k].kind !in d.allowedChildTypes && x == Issue(DisallowedChildType, path + [Child(k)], [])
    decreases |children| - i
  {
    if i < |children| {
      TypesUnder(d, children, i + 1, path);
    }
  }

  lemma OwnUnder(env: Env, b: Block, path: Path, defs: map<Text, Definition>)
    ensures forall x <- OwnIssues(env, b, path, defs) :: Under(path, x)
  {
    hide SchemaIssues, ChildTypeIssues;
    if b.kind in defs {
      SchemaBelow(env, defs[b.kind].schema, b.props, path + [Props]);
      TypesUnder(defs[b.kind], b.children, 0, path);
    }
  }

  // Where the issues of a block's props, of its child types and of its children stand.
  lemma PartsApart(env: Env, b: Block, path: Path, defs: map<Text, Definition>)
    ensures forall x <- BlocksIssues(env, b.children, 0, path, defs) :: exists k: nat :: Via(path, Child(k), x)
    ensures b.kind in defs ==> forall x <- SchemaIssues(env, defs[b.kind].schema, b.props, path + [Props]) ::
      Via(path, Props, x)
    ensures b.kind in defs ==> forall x <- ChildTypeIssues(defs[b.kind], b.children, 0, path) ::
      x.code == DisallowedChildType && exists k: nat :: Via(path, Child(k), x)
  {
    hide SchemaIssues, ChildTypeIssues, BlocksIssues;
    BlocksUnder(env, b.children, 0, path, defs);
    forall x | x in BlocksIssues(env, b.children, 0, path, defs) ensures exists k: nat :: Via(path, Child(k), x) {
      var k :| 0 <= k < |b.children| && Under(path + [Child(k)], x);
      UnderIsVia(path, Child(k), x);
    }
    if b.kind in defs {
      SchemaBelow(env, defs[b.kind].schema, b.props, path + [Props]);
      TypesUnder(defs[b.kind], b.children, 0, path);
      forall x | x in SchemaIssues(env, defs[b.kind].schema, b.props, path + [Props]) ensures Via(path, Props, x) {
        UnderIsVia(path, Props, x);
      }
      forall x | x in ChildTypeIssues(defs[b.kind], b.children, 0, path)
        ensures x.code == DisallowedChildType && exists k: nat :: Via(path, Child(k), x)
      {
        var k: nat :| k < |b.children| && x == Issue(DisallowedChildType, path + [Child(k)], []);
        assert Via(path, Child(k), x);
      }
    }
  }

  lemma CountReports(d: Definition, n: nat, path: Path)
    ensures var (issues, at) := (ChildCountIssues(d, n, path), path + [Children]);
      && (Issue(UnexpectedChildren, at, []) in issues <==> !d.acceptsChildren && n > 0)
      && (Issue(TooFewChildren, at, []) in issues <==> d.minChildren.Some? && n < d.minChildren.value)
      && (Issue(TooManyChildren, at, []) in issues <==> d.maxChildren.Some? && d.maxChildren.value < n)
      && (forall x <- issues :: x.path == at)
  {
  }

  // An issue about the children of the block stands in its own list.
  lemma ChildrenIssue(env: Env, b: Block, path: Path, defs: map<Text, Definition>, code: Code)
    requires b.kind in defs
    ensures var x := Issue(code, path + [Children], []);
      x in BlockIssues(env, b, path, defs) <==> x in ChildCountIssues(defs[b.kind], |b.children|, path)
  {
    hide SchemaIssues, ChildTypeIssues, BlocksIssues, ChildCountIssues;
    var x := Issue(code, path + [Children], []);
    PartsApart(env, b, path, defs);
    assert x.path[|path|] == Children;
  }

  lemma TypeIssue(env: Env, b: Block, path: Path, defs: map<Text, Definition>)
    ensures Issue(UnknownBlockType, path, []) in BlockIssues(env, b, path, defs) <==> b.kind !in defs
  {
    hide SchemaIssues, ChildTypeIssues, BlocksIssues, ChildCountIssues;
    PartsApart(env, b, path, defs);
    if b.kind in defs {
      CountReports(defs[b.kind], |b.children|, path);
    }
  }

  /**
   * What a block itself is reported for: an unknown type; children it does not take, too few, or too many; and the
   * issues of its props.
   */
  lemma BlockReports(env: Env, b: Block, path: Path, defs: map<Text, Definition>)
    ensures var issues := BlockIssues(env, b, path, defs);
      && (Issue(UnknownBlockType, path, []) in issues <==> b.kind !in defs)
      && (b.kind in defs ==>
            var (d, n) := (defs[b.kind], |b.children|);
            && (Issue(UnexpectedChildren, path + [Children], []) in issues <==> !d.acceptsChildren && n > 0)
            && (Issue(TooFewChildren, path + [Children], []) in issues <==>
                  d.minChildren.Some? && n < d.minChildren.value)
            && (Issue(TooManyChildren, path + [Children], []) in issues <==>
                  d.maxChildren.Some? && d.maxChildren.value < n)
            && (forall x <- SchemaIssues(env, d.schema, b.props, path + [Props]) :: x in issues))
  {
    hide SchemaIssues, BlockIssues, ChildCountIssues;
    TypeIssue(env, b, path, defs);
    if b.kind in defs {
      var d := defs[b.kind];
      CountReports(d, |b.children|, path);
      ChildrenIssue(env, b, path, defs, UnexpectedChildren);
      ChildrenIssue(env, b, path, defs, TooFewChildren);
      ChildrenIssue(env, b, path, defs, TooManyChildren);
      forall x | x in SchemaIssues(env, d.schema, b.props, path + [Props])
        ensures x in BlockIssues(env, b, path, defs)
      {
        PropsArePart(env, b, path, defs, x);
      }
    }
  }

  lemma PropsArePart(env: Env, b: Block, path: Path, defs: map<Text, Definition>, x: Issue)
    requires b.kind in defs && x in SchemaIssues(env, defs[b.kind].schema, b.props, path + [Props])
    ensures x in BlockIssues(env, b, path, defs)
  {
    hide SchemaIssues, BlocksIssues, ChildTypeIssues, ChildCountIssues;
  }

  // An issue about a child's type stands strictly below the parent.
  lemma {:induction false} TypesBelow(env: Env, b: Block, path: Path, defs: map<Text, Definition>)
    ensures forall x <- BlockIssues(env, b, path, defs) :: x.code == DisallowedChildType ==> Below(path, x)
  {
    hide SchemaIssues, ChildTypeIssues, BlocksIssues;
    BlocksUnder(env, b.children, 0, path, defs);
    if b.kind in defs {
      SchemaBelow(env, defs[b.kind].schema, b.props, path + [Props]);
      TypesUnder(defs[b.kind], b.children, 0, path);
    }
  }

  /**
   * A child is reported as one its parent does not take exactly when the parent lists types and this is none of
   * them.
   */
  lemma ChildTypeReports(env: Env, b: Block, path: Path, defs: map<Text, Definition>, k: nat)
    requires b.kind in defs && k < |b.children|
    ensures var allowed := defs[b.kind].allowedChildTypes;
      Issue(DisallowedChildType, path + [Child(k)], []) in BlockIssues(env, b, path, defs) <==>
        allowed != [] && ANY !in allowed && b.children[k].kind !in allowed
  {
    hide SchemaIssues, ChildTypeIssues, BlocksIssues;
    var (d, x) := (defs[b.kind], Issue(DisallowedChildType, path + [Child(k)], []));
    TypesUnder(d, b.children, 0, path);
    PartsApart(env, b, path, defs);
    assert !Via(path, Props, x) && (path + [Child(k)])[|path|] == Child(k);
    SameChild(path, k);
    if x in BlocksIssues(env, b.children, 0, path, defs) {
      ChildrenMembers(env, b.children, 0, path, defs, x);
      var m: nat :| m < |b.children| && x in BlockIssues(env, b.children[m], path + [Child(m)], defs);
      TypesBelow(env, b.children[m], path + [Child(m)], defs);
      assert false;
    }
  }

  lemma SameChild(path: Path, k: nat)
    ensures forall m: nat :: path + [Child(m)] == path + [Child(k)] ==> m == k
  {
    forall m: nat | path + [Child(m)] == path + [Child(k)] ensures m == k {
      assert (path + [Child(m)])[|path|] == (path + [Child(k)])[|path|];
    }
  }
}
