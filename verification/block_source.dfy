/** Who contributed a block, and whether that contributor is active for a site. */
module BlockSource {
  import opened Common
  import opened Utf8
  import opened Ascii
  import opened TextSearch

  type Text = seq<Unit>

  datatype Source = Core | Custom | Theme(id: Option<Text>) | Plugin(id: Option<Text>) | Unrecognized

  // The site's theme, if it has one, and its enabled plugins.
  datatype Site = Site(themeId: Option<Text>, pluginIds: set<Text>)

  const CORE: Text := Lit("core")
  const BUILT_IN: Text := Lit("built-in")
  const CUSTOM: Text := Lit("custom")
  const PLUGIN: Text := Lit("plugin")
  const THEME: Text := Lit("theme")
  const THEME_PREFIX: Text := Lit("theme:")
  const PLUGIN_PREFIX: Text := Lit("plugin:")

  function Owner(id: Text): Option<Text> { if id == [] then None else Some(id) }

  function ParseBlockSource(source: Option<Text>): Source {
    match source
    case None => Core
    case Some(s) =>
      if s == [] || s == CORE || s == BUILT_IN then Core
      else if s == CUSTOM then Custom
      else if s == PLUGIN then Plugin(None)
      else if s == THEME then Theme(None)
      else if THEME_PREFIX <= s then Theme(Owner(s[|THEME_PREFIX|..]))
      else if PLUGIN_PREFIX <= s then Plugin(Owner(s[|PLUGIN_PREFIX|..]))
      else Unrecognized
  }

  predicate Active(source: Option<Text>, site: Site) {
    match ParseBlockSource(source)
    case Theme(Some(id)) => site.themeId == Some(id)
    case Plugin(Some(id)) => id in site.pluginIds
    case _ => true
  }

  // The name a contributor's registrations are filed under.
  function SourceKey(source: Option<Text>): Text {
    match source
    case None => CORE
    case Some(s) => s
  }

  // Registrations filed under one key are active for the same sites.
  lemma ActiveByKey(a: Option<Text>, b: Option<Text>, site: Site)
    requires SourceKey(a) == SourceKey(b)
    ensures Active(a, site) == Active(b, site)
  {
  }

  /** Only a theme or plugin with an id can be inactive, and its id alone decides. */
  lemma ActiveExactly(id: Text, site: Site)
    requires id != []
    ensures Active(Some(THEME_PREFIX + id), site) <==> site.themeId == Some(id)
    ensures Active(Some(PLUGIN_PREFIX + id), site) <==> id in site.pluginIds
    ensures Active(None, site)
    ensures forall s: Text ::
      (forall x: Text :: x != [] ==> s != THEME_PREFIX + x && s != PLUGIN_PREFIX + x) ==> Active(Some(s), site)
  {
    OwnedSource(THEME_PREFIX, id);
    OwnedSource(PLUGIN_PREFIX, id);
    assert THEME_PREFIX[0] != PLUGIN_PREFIX[0];
    forall s: Text | forall x: Text :: x != [] ==> s != THEME_PREFIX + x && s != PLUGIN_PREFIX + x
      ensures Active(Some(s), site)
    {
      assert THEME_PREFIX <= s ==> s == THEME_PREFIX + s[|THEME_PREFIX|..];
      assert PLUGIN_PREFIX <= s ==> s == PLUGIN_PREFIX + s[|PLUGIN_PREFIX|..];
    }
  }

  // A source with an owner's id is none of the fixed labels.
  lemma OwnedSource(prefix: Text, id: Text)
    requires (prefix == THEME_PREFIX || prefix == PLUGIN_PREFIX) && id != []
    ensures var s := prefix + id;
      prefix <= s && s[|prefix|..] == id && s[0] == prefix[0]
      && s != CORE && s != BUILT_IN && s != CUSTOM && s != PLUGIN && s != THEME
  {
    var s := prefix + id;
    assert s[0] == prefix[0] && s[|prefix| - 1] == prefix[|prefix| - 1];
  }

  /** Two sources are filed under one key only when they are the same, or one is absent and the other is "core". */
  lemma SourceKeyExactly(a: Option<Text>, b: Option<Text>)
    ensures SourceKey(a) == SourceKey(b) <==>
      a == b || (a == None && b == Some(Lit("core"))) || (b == None && a == Some(Lit("core")))
  {
    match (a, b)
    case (None, Some(s)) => assert SourceKey(a) == Lit("core");
    case (Some(s), None) => assert SourceKey(b) == Lit("core");
    case _ =>
  }
}
