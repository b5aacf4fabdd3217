/** Choosing one entry per name from a flat candidate list, and agreement with the registration log. */
module RegistrySelection {
  import opened Common
  import opened BlockSource
  import opened BlockRegistry

  type Test = Entry -> bool

  // ---- one pass over the candidates ----

  method Collected(names: seq<Text>, chosen: map<Text, Option<Entry>>, ghost log: seq<Entry>, ghost test: Test)
    returns (r: seq<Entry>)
    requires forall n :: n in names ==> n in chosen && chosen[n] == LastOf(log, n, test)
    ensures r == Selection(names, log, test)
  {
    r := [];
    var i := |names|;
    while i > 0
      invariant 0 <= i <= |names| && r == Selection(names[i..], log, test)
    {
      i := i - 1;
      assert names[i..][1..] == names[i + 1..] && names[i..][0] == names[i] && names[i] in names;
      if chosen[names[i]].Some? {
        r := [chosen[names[i]].value] + r;
      }
    }
    assert names[0..] == names;
  }

  /** Blocks: the pass keeps the last active candidate of each type, in order of first appearance. */
  method SelectBlockCandidates(candidates: seq<Entry>, site: Site) returns (r: seq<Entry>)
    ensures r == Selection(Names(candidates), candidates, IsActive(site))
  {
    hide Active, Selection;
    var order: seq<Text> := [];
    var selected: map<Text, Option<Entry>> := map[];
    var i := 0;
    while i < |candidates|
      invariant i <= |candidates| && order == Names(candidates[..i])
      invariant selected.Keys == set n | n in order
      invariant forall n :: n in order ==> selected[n] == LastOf(candidates[..i], n, IsActive(site))
    {
      var e := candidates[i];
      ghost var seen := candidates[..i];
      assert candidates[..i + 1] == seen + [e];
      NamesAfter(seen, e);
      forall n ensures LastOf(seen + [e], n, IsActive(site))
        == (if e.name == n && IsActive(site)(e) then Some(e) else LastOf(seen, n, IsActive(site)))
      {
        LastOfAppend(seen, e, n, IsActive(site));
      }
      if e.name !in selected {
        NamesAreLogged(seen, e.name);
        NothingNamed(seen, e.name, IsActive(site));
        order := order + [e.name];
        selected := selected[e.name := None];
      }
      if Active(e.source, site) {
        selected := selected[e.name := Some(e)];
      }
      i := i + 1;
    }
    assert candidates[..i] == candidates;
    r := Collected(order, selected, candidates, IsActive(site));
  }

  // ---- grouping first, then a search from the end of each group ----

  function Named(log: seq<Entry>, name: Text): seq<Entry> {
    if log == [] then []
    else
      var before := Named(log[..|log| - 1], name);
      if log[|log| - 1].name == name then before + [log[|log| - 1]] else before
  }

  lemma {:induction false} NamedKeepsLast(log: seq<Entry>, name: Text, test: Test)
    ensures LastOf(Named(log, name), name, test) == LastOf(log, name, test)
  {
    if log != [] {
      var rest := log[..|log| - 1];
      NamedKeepsLast(rest, name, test);
      LastOfAppend(Named(rest, name), log[|log| - 1], name, test);
    }
  }

  method FindLast(es: seq<Entry>, name: Text, test: Test) returns (r: Option<Entry>)
    ensures r == LastOf(es, name, test)
  {
    var i := |es|;
    assert es[..|es|] == es;
    while i > 0
      invariant 0 <= i <= |es| && LastOf(es, name, test) == LastOf(es[..i], name, test)
    {
      assert es[..i][..i - 1] == es[..i - 1] && es[..i][i - 1] == es[i - 1];
      if es[i - 1].name == name && test(es[i - 1]) {
        return Some(es[i - 1]);
      }
      i := i - 1;
    }
    return None;
  }

  lemma NamedAfter(log: seq<Entry>, e: Entry, name: Text)
    ensures Named(log + [e], name) == Named(log, name) + if e.name == name then [e] else []
  {
    assert (log + [e])[..|log|] == log;
  }

  // The groups of a candidate list, with their names in order of first appearance.
  method GroupByName(candidates: seq<Entry>) returns (order: seq<Text>, groups: map<Text, seq<Entry>>)
    ensures order == Names(candidates) && groups.Keys == (set n | n in order)
    ensures forall n :: n in groups ==> groups[n] == Named(candidates, n)
  {
    hide Names, Named;
    order, groups := [], map[];
    var i := 0;
    NothingYet(candidates);
    while i < |candidates|
      invariant i <= |candidates| && order == Names(candidates[..i])
      invariant groups.Keys == set n | n in order
      invariant forall n :: (if n in groups then groups[n] else []) == Named(candidates[..i], n)
    {
      var e := candidates[i];
      ghost var seen := candidates[..i];
      assert candidates[..i + 1] == seen + [e];
      NamesAfter(seen, e);
      forall n ensures Named(seen + [e], n) == Named(seen, n) + if e.name == n then [e] else [] {
        NamedAfter(seen, e, n);
      }
      if e.name !in groups {
        order := order + [e.name];
      }
      groups := groups[e.name := (if e.name in groups then groups[e.name] else []) + [e]];
      i := i + 1;
    }
    assert candidates[..i] == candidates;
  }

  lemma NothingYet(candidates: seq<Entry>)
    ensures candidates[..0] == [] && Names([]) == [] && forall n :: Named([], n) == []
  {
  }

  /**
   * Patterns: grouping by id and searching each group from its end makes the same choice, for any test of
   * what a site can use.
   */
  method SelectPatternCandidates(candidates: seq<Entry>, usable: Test) returns (r: seq<Entry>)
    ensures r == Selection(Names(candidates), candidates, usable)
  {
    hide Selection, Names, Named, LastOf;
    var order, groups := GroupByName(candidates);
    var chosen: map<Text, Option<Entry>> := map[];
    var i := 0;
    while i < |order|
      invariant i <= |order| && chosen.Keys == set j | 0 <= j < i :: order[j]
      invariant forall n :: n in chosen ==> chosen[n] == LastOf(candidates, n, usable)
    {
      NamedKeepsLast(candidates, order[i], usable);
      assert order[i] in groups;
      var last := FindLast(groups[order[i]], order[i], usable);
      chosen := chosen[order[i] := last];
      i := i + 1;
    }
    r := Collected(order, chosen, candidates, usable);
  }

  // ---- agreement with the log ----

  // The candidates of all names, one list after the other, as the maps hold them.
  function Flat(names: seq<Text>, log: seq<Entry>): seq<Entry> {
    if names == [] then [] else Flat(names[..|names| - 1], log) + Kept(log, names[|names| - 1])
  }

  predicate AllNamed(es: seq<Entry>, name: Text) {
    forall i :: 0 <= i < |es| ==> es[i].name == name
  }

  lemma {:induction false} NamesOfConcat(a: seq<Entry>, b: seq<Entry>, name: Text)
    requires AllNamed(b, name) && name !in Names(a)
    ensures Names(a + b) == if b == [] then Names(a) else Names(a) + [name]
  {
    if b == [] {
      assert a + b == a;
    } else {
      var b' := b[..|b| - 1];
      NamesOfConcat(a, b', name);
      assert a + b == (a + b') + [b[|b| - 1]];
      NamesAfter(a + b', b[|b| - 1]);
    }
  }

  lemma {:induction false} LastOfConcat(a: seq<Entry>, b: seq<Entry>, name: Text, test: Test)
    ensures LastOf(a + b, name, test) ==
      match LastOf(b, name, test)
      case Some(e) => Some(e)
      case None => LastOf(a, name, test)
  {
    if b == [] {
      assert a + b == a;
    } else {
      assert (a + b)[..|a + b| - 1] == a + b[..|b| - 1];
      LastOfConcat(a, b[..|b| - 1], name, test);
    }
  }

  lemma KeptIsNamed(log: seq<Entry>, name: Text)
    ensures AllNamed(Kept(log, name), name)
  {
    KeptIsDistinct(log, name);
    var kept := Kept(log, name);
    assert forall i :: 0 <= i < |kept| ==> kept[i] in kept;
  }

  lemma {:induction false} KeptSomething(log: seq<Entry>, name: Text)
    requires name in Names(log)
    ensures Kept(log, name) != []
  {
    if log[|log| - 1].name != name {
      KeptSomething(log[..|log| - 1], name);
    }
  }

  predicate Distinct(names: seq<Text>) {
    forall i, j :: 0 <= i < j < |names| ==> names[i] != names[j]
  }

  lemma {:induction false} NamesAreDistinct(log: seq<Entry>)
    ensures Distinct(Names(log))
  {
    if log != [] {
      NamesAreDistinct(log[..|log| - 1]);
    }
  }

  lemma {:induction false} FlatNames(names: seq<Text>, log: seq<Entry>)
    requires Distinct(names) && forall i :: 0 <= i < |names| ==> names[i] in Names(log)
    ensures Names(Flat(names, log)) == names
  {
    hide Kept;
    if names != [] {
      var (front, last) := (names[..|names| - 1], names[|names| - 1]);
      FlatNames(front, log);
      KeptIsNamed(log, last);
      KeptSomething(log, last);
      NamesOfConcat(Flat(front, log), Kept(log, last), last);
    }
  }

  lemma {:induction false} FlatLast(names: seq<Text>, log: seq<Entry>, name: Text, test: Test)
    requires Distinct(names)
    ensures LastOf(Flat(names, log), name, test) == if name in names then LastOf(Kept(log, name), name, test) else None
  {
    hide Kept;
    if names != [] {
      var (front, last) := (names[..|names| - 1], names[|names| - 1]);
      assert name in names <==> name in front || name == last;
      FlatLast(front, log, name, test);
      LastOfConcat(Flat(front, log), Kept(log, last), name, test);
      KeptIsNamed(log, last);
      if name != last {
        NothingNamed(Kept(log, last), name, test);
      }
    }
  }

  lemma {:induction false} SelectionCongruent(names: seq<Text>, a: seq<Entry>, b: seq<Entry>, test: Test)
    requires forall i :: 0 <= i < |names| ==> LastOf(a, names[i], test) == LastOf(b, names[i], test)
    ensures Selection(names, a, test) == Selection(names, b, test)
  {
    hide LastOf;
    if names != [] {
      assert forall i :: 0 <= i < |names[1..]| ==> names[1..][i] == names[i + 1];
      SelectionCongruent(names[1..], a, b, test);
    }
  }

  /**
   * The choice made from the flattened candidate lists is, name for name, the last registration since the
   * reset whose contributor is active, in order of first registration.
   */
  lemma FlatSelectionIsLogSelection(log: seq<Entry>, site: Site)
    ensures var flat := Flat(Names(log), log);
      Selection(Names(flat), flat, IsActive(site)) == Selection(Names(log), log, IsActive(site))
  {
    hide Kept, Active, Flat, Names;
    var names := Names(log);
    NamesAreDistinct(log);
    FlatNames(names, log);
    ActiveIsBySource(site);
    forall i | 0 <= i < |names|
      ensures LastOf(Flat(names, log), names[i], IsActive(site)) == LastOf(log, names[i], IsActive(site))
    {
      FlatLast(names, log, names[i], IsActive(site));
      CandidatesSuffice(log, names[i], IsActive(site));
    }
    SelectionCongruent(names, Flat(names, log), log, IsActive(site));
  }

  lemma CandidatesOf(registry: SharedRegistry, name: Text)
    requires registry.Valid() && name in registry.order
    ensures name in registry.candidates && registry.candidates[name] == Kept(registry.log, name)
  {
    hide Kept, Names;
    assert Filed(registry.log, name, registry.candidates[name], registry.definitions[name]);
  }

  lemma OrderOf(registry: SharedRegistry)
    requires registry.Valid()
    ensures registry.order == Names(registry.log)
  {
  }

  /**
   * The blocks of a site: the candidate lists of the registry, one after the other, and the choice from them.
   * The result is, in order of first registration, the last registration of each type whose contributor is active.
   */
  method GetRegisteredForActiveSources(registry: SharedRegistry, site: Site) returns (r: seq<Entry>)
    requires registry.Valid()
    ensures r == Selection(Names(registry.log), registry.log, IsActive(site))
  {
    hide Kept, Names, Selection, LastOf, Active;
    var flat: seq<Entry> := [];
    var i := 0;
    while i < |registry.order|
      invariant i <= |registry.order| && flat == Flat(registry.order[..i], registry.log)
    {
      assert registry.order[..i + 1][..i] == registry.order[..i];
      CandidatesOf(registry, registry.order[i]);
      flat := flat + registry.candidates[registry.order[i]];
      i := i + 1;
    }
    assert registry.order[..i] == registry.order;
    OrderOf(registry);
    FlatSelectionIsLogSelection(registry.log, site);
    r := SelectBlockCandidates(flat, site);
  }
}
