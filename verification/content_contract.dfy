/** Checking block content against the registered block schemas. */
module ContentContract {
  import opened Common
  import opened Utf8

  type Text = seq<Unit>

  // A JavaScript value as the checker sees it. Records keep the order of their keys.
  datatype Value =
    | Undefined | Null | Bool(b: bool) | Num(n: real) | NonFinite | Str(s: Text)
    | List(items: seq<Value>) | Record(fields: seq<(Text, Value)>) | Other

  // What a condition may compare with.
  datatype Scalar = SBool(b: bool) | SNum(n: real) | SStr(s: Text)

  datatype Condition = Condition(name: Text, expected: Scalar)

  datatype Kind =
    | Pattern(pattern: Text)                                  // text and url
    | PlainText                                               // textarea, image, color and collection
    | Number(min: Option<real>, max: Option<real>, step: Option<real>)
    | Boolean
    | Select(options: seq<Text>)
    | RichText
    | Array(itemSchema: seq<Field>, itemDefault: Option<Value>)

  // An empty pattern or an empty condition list is as good as none.
  datatype Field = Field(
    name: Text, required: bool, default: Option<Value>,
    hiddenWhen: seq<Condition>, visibleWhen: seq<Condition>, kind: Kind)

  // The judgements of code outside the model: patterns, step alignment, rich text, and the block structure check.
  datatype Env = Env(
    matches: (Text, Text) -> bool,
    aligned: (real, real, real) -> bool,
    richText: Value -> bool,
    structural: Value -> bool)

  datatype Code =
    | InvalidContent | UnknownBlockType | MissingRequired | InvalidProp | UnknownProp
    | UnexpectedChildren | DisallowedChildType | TooManyChildren | TooFewChildren

  datatype Step = Prop(name: Text) | Item(index: nat) | Props | Child(child: nat) | Children

  type Path = seq<Step>

  datatype Issue = Issue(code: Code, path: Path, prop: Text)

  predicate IsError(c: Code) { c != UnknownBlockType && c != UnknownProp && c != TooFewChildren }

  // ---- one value ----

  function ScalarValue(s: Scalar): Value {
    match s
    case SBool(b) => Bool(b)
    case SNum(n) => Num(n)
    case SStr(t) => Str(t)
  }

  function Get(props: seq<(Text, Value)>, name: Text): Value {
    if props == [] then Undefined
    else if props[0].0 == name then props[0].1
    else Get(props[1..], name)
  }

  predicate IsMissing(v: Value) { v == Undefined || v == Null || v == Str([]) }

  predicate Holds(c: Condition, props: seq<(Text, Value)>) {
    Get(props, c.name) == ScalarValue(c.expected)
  }

  predicate Hidden(f: Field, props: seq<(Text, Value)>) {
    (f.hiddenWhen != [] && forall i :: 0 <= i < |f.hiddenWhen| ==> Holds(f.hiddenWhen[i], props)) ||
    (exists i :: 0 <= i < |f.visibleWhen| && !Holds(f.visibleWhen[i], props))
  }

  predicate InRange(env: Env, kind: Kind, n: real)
    requires kind.Number?
  {
    && (kind.min.Some? ==> n >= kind.min.value)
    && (kind.max.Some? ==> n <= kind.max.value)
    && (kind.step.Some? ==> env.aligned(n, kind.step.value, if kind.min.Some? then kind.min.value else 0.0))
  }

  // Whether a value fits the kind of its field; the items of an array are checked on their own.
  predicate Fits(env: Env, kind: Kind, v: Value) {
    match kind
    case Pattern(p) => v.Str? && (p == [] || v.s == [] || env.matches(v.s, p))
    case PlainText => v.Str?
    case Number(_, _, _) => v.Num? && InRange(env, kind, v.n)
    case Boolean => v.Bool?
    case Select(options) => v.Str? && v.s in options
    case RichText => env.richText(v)
    case Array(_, _) => v.List?
  }

  // ---- the issues of a value, a field and a schema ----

  function Present(env: Env, f: Field, v: Value, path: Path): seq<Issue>
    decreases f, 1, 0
  {
    if f.required && IsMissing(v) then [Issue(MissingRequired, path, f.name)]
    else if !Fits(env, f.kind, v) then [Issue(InvalidProp, path, f.name)]
    else if f.kind.Array? then ItemsFrom(env, f, v.items, 0, path)
    else []
  }

  function ItemsFrom(env: Env, f: Field, items: seq<Value>, i: nat, path: Path): seq<Issue>
    requires f.kind.Array?
    decreases f, 0, |items| - i
  {
    if i >= |items| then []
    else
      (if items[i].Record? then SchemaIssues(env, f.kind.itemSchema, items[i].fields, path + [Item(i)])
       else [Issue(InvalidProp, path + [Item(i)], f.name)])
      + ItemsFrom(env, f, items, i + 1, path)
  }

  // The value the checker looks at: the default stands in for an absent one.
  function Effective(f: Field, v: Value): Value {
    if v == Undefined && f.default.Some? then f.default.value else v
  }

  function FieldIssues(env: Env, f: Field, v: Value, props: seq<(Text, Value)>, path: Path): seq<Issue>
    decreases f, 2, 0
  {
    if Hidden(f, props) then []
    else if Effective(f, v) == Undefined then
      if f.required then [Issue(MissingRequired, path, f.name)] else []
    else Present(env, f, Effective(f, v), path)
  }

  predicate Known(schema: seq<Field>, name: Text) {
    exists i :: 0 <= i < |schema| && schema[i].name == name
  }

  function UnknownProps(schema: seq<Field>, props: seq<(Text, Value)>, path: Path): seq<Issue> {
    if props == [] then []
    else
      (if Known(schema, props[0].0) then [] else [Issue(UnknownProp, path + [Prop(props[0].0)], props[0].0)])
      + UnknownProps(schema, props[1..], path)
  }

  function FieldsIssues(env: Env, schema: seq<Field>, props: seq<(Text, Value)>, path: Path): seq<Issue>
    decreases schema, 0, 0
  {
    if schema == [] then []
    else
      FieldIssues(env, schema[0], Get(props, schema[0].name), props, path + [Prop(schema[0].name)])
      + FieldsIssues(env, schema[1..], props, path)
  }

  function SchemaIssues(env: Env, schema: seq<Field>, props: seq<(Text, Value)>, path: Path): seq<Issue>
    decreases schema, 1, 0
  {
    UnknownProps(schema, props, path) + FieldsIssues(env, schema, props, path)
  }

  // The issues of a props object on its own.
  function PropsIssues(env: Env, schema: seq<Field>, v: Value): seq<Issue> {
    if !env.structural(v) || !v.Record? then [Issue(InvalidContent, [Props], [])]
    else SchemaIssues(env, schema, v.fields, [Props])
  }

  // ---- blocks ----

  datatype Block = Block(kind: Text, props: seq<(Text, Value)>, children: seq<Block>)

  datatype Definition = Definition(
    schema: seq<Field>, acceptsChildren: bool, minChildren: Option<nat>, maxChildren: Option<nat>,
    allowedChildTypes: seq<Text>)

  const ANY: Text := ['*' as int]

  function ChildCountIssues(d: Definition, n: nat, path: Path): seq<Issue> {
    (if !d.acceptsChildren && n > 0 then [Issue(UnexpectedChildren, path + [Children], [])] else [])
    + (if d.minChildren.Some? && n < d.minChildren.value then [Issue(TooFewChildren, path + [Children], [])] else [])
    + (if d.maxChildren.Some? && n > d.maxChildren.value then [Issue(TooManyChildren, path + [Children], [])] else [])
  }

  function ChildTypeIssues(d: Definition, children: seq<Block>, i: nat, path: Path): seq<Issue>
    decreases |children| - i
  {
    if i >= |children| || d.allowedChildTypes == [] || ANY in d.allowedChildTypes then []
    else
      (if children[i].kind in d.allowedChildTypes then [] else [Issue(DisallowedChildType, path + [Child(i)], [])])
      + ChildTypeIssues(d, children, i + 1, path)
  }

  function OwnIssues(env: Env, b: Block, path: Path, defs: map<Text, Definition>): seq<Issue> {
    if b.kind !in defs then [Issue(UnknownBlockType, path, [])]
    else
      var d := defs[b.kind];
      SchemaIssues(env, d.schema, b.props, path + [Props])
      + ChildCountIssues(d, |b.children|, path)
      + ChildTypeIssues(d, b.children, 0, path)
  }

  function BlockIssues(env: Env, b: Block, path: Path, defs: map<Text, Definition>): seq<Issue>
    decreases b, 1
  {
    OwnIssues(env, b, path, defs) + BlocksIssues(env, b.children, 0, path, defs)
  }

  function BlocksIssues(env: Env, bs: seq<Block>, i: nat, path: Path, defs: map<Text, Definition>): seq<Issue>
    decreases bs, 0, |bs| - i
  {
    if i >= |bs| then []
    else BlockIssues(env, bs[i], path + [Child(i)], defs) + BlocksIssues(env, bs, i + 1, path, defs)
  }
}
