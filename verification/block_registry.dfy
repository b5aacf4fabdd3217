/** The shared registry: candidates per type, and the choices made from them for a site. */
module BlockRegistry {
  import opened Common
  import opened Utf8
  import opened BlockSource

  // A block definition or a pattern: the name it is registered under, its contributor, and what it is.
  datatype Entry = Entry(name: Text, source: Option<Text>, content: int)

  // ---- the simple reading of a registration log ----

  // The last entry of a name that passes the test.
  function LastOf(log: seq<Entry>, name: Text, test: Entry -> bool): Option<Entry> {
    if log == [] then None
    else
      var last := log[|log| - 1];
      if last.name == name && test(last) then Some(last) else LastOf(log[..|log| - 1], name, test)
  }

  // The names of a log, in order of first appearance.
  function Names(log: seq<Entry>): (r: seq<Text>) {
    if log == [] then []
    else
      var before := Names(log[..|log| - 1]);
      if log[|log| - 1].name in before then before else before + [log[|log| - 1].name]
  }

  // For every name in order of first appearance, its last entry that passes.
  function Selection(names: seq<Text>, log: seq<Entry>, test: Entry -> bool): seq<Entry> {
    if names == [] then []
    else
      var rest := Selection(names[1..], log, test);
      match LastOf(log, names[0], test)
      case None => rest
      case Some(e) => [e] + rest
  }

  // ---- the candidates kept for one name ----

  // The list without the first entry filed under key.
  function Without(es: seq<Entry>, key: Text): seq<Entry> {
    if es == [] then []
    else if SourceKey(es[0].source) == key then es[1..]
    else [es[0]] + Without(es[1..], key)
  }

  function Kept(log: seq<Entry>, name: Text): seq<Entry> {
    if log == [] then []
    else
      var (before, last) := (Kept(log[..|log| - 1], name), log[|log| - 1]);
      if last.name == name then Without(before, SourceKey(last.source)) + [last] else before
  }

  predicate DistinctSources(es: seq<Entry>) {
    forall i, j :: 0 <= i < j < |es| ==> SourceKey(es[i].source) != SourceKey(es[j].source)
  }

  lemma {:induction false} WithoutMembers(es: seq<Entry>, key: Text)
    ensures forall e :: e in Without(es, key) ==> e in es
  {
    if es != [] {
      WithoutMembers(es[1..], key);
    }
  }

  lemma {:induction false} WithoutKeepsDistinct(es: seq<Entry>, key: Text)
    requires DistinctSources(es)
    ensures DistinctSources(Without(es, key))
    ensures forall e :: e in Without(es, key) ==> SourceKey(e.source) != key
  {
    hide SourceKey;
    if es != [] {
      var rest := es[1..];
      assert forall i :: 0 <= i < |rest| ==> rest[i] == es[i + 1];
      WithoutKeepsDistinct(rest, key);
      WithoutMembers(rest, key);
      assert forall e :: e in rest ==> SourceKey(e.source) != SourceKey(es[0].source);
    }
  }

  /** No candidate list holds two entries of one contributor. */
  lemma {:induction false} KeptIsDistinct(log: seq<Entry>, name: Text)
    ensures DistinctSources(Kept(log, name))
    ensures forall e :: e in Kept(log, name) ==> e.name == name && e in log
  {
    if log != [] {
      KeptIsDistinct(log[..|log| - 1], name);
      var last := log[|log| - 1];
      var before := Kept(log[..|log| - 1], name);
      WithoutKeepsDistinct(before, SourceKey(last.source));
      WithoutMembers(before, SourceKey(last.source));
      var fewer := Without(before, SourceKey(last.source));
      assert forall i :: 0 <= i < |fewer| ==> fewer[i] in fewer;
    }
  }

  // A test that cannot tell two entries of one contributor apart.
  ghost predicate BySource(test: Entry -> bool) {
    forall a: Entry, b: Entry :: SourceKey(a.source) == SourceKey(b.source) ==> test(a) == test(b)
  }

  lemma {:induction false} LastOfAppend(es: seq<Entry>, e: Entry, name: Text, test: Entry -> bool)
    ensures LastOf(es + [e], name, test) == if e.name == name && test(e) then Some(e) else LastOf(es, name, test)
  {
    assert (es + [e])[..|es|] == es;
  }

  // Dropping an entry that does not pass, or whose name is another, changes nothing.
  lemma {:induction false} DroppingIdle(es: seq<Entry>, key: Text, name: Text, test: Entry -> bool)
    requires forall i :: 0 <= i < |es| && SourceKey(es[i].source) == key ==> !test(es[i])
    ensures LastOf(Without(es, key), name, test) == LastOf(es, name, test)
  {
    if es != [] {
      LastOfCons(es[0], es[1..], name, test);
      assert [es[0]] + es[1..] == es;
      if SourceKey(es[0].source) != key {
        LastOfCons(es[0], Without(es[1..], key), name, test);
        DroppingIdle(es[1..], key, name, test);
      }
    }
  }

  lemma {:induction false} LastOfCons(e: Entry, es: seq<Entry>, name: Text, test: Entry -> bool)
    ensures LastOf([e] + es, name, test) ==
      match LastOf(es, name, test)
      case Some(x) => Some(x)
      case None => if e.name == name && test(e) then Some(e) else None
  {
    if es != [] {
      assert ([e] + es)[..|es|] == [e] + es[..|es| - 1];
      LastOfCons(e, es[..|es| - 1], name, test);
    } else {
      assert [e] + es == [e] && [e][..0] == [];
    }
  }

  /**
   * The candidates are enough: for a test that depends on the contributor only, the last candidate that
   * passes is the last registration that passes.
   */
  lemma {:induction false} CandidatesSuffice(log: seq<Entry>, name: Text, test: Entry -> bool)
    requires BySource(test)
    ensures LastOf(Kept(log, name), name, test) == LastOf(log, name, test)
  {
    if log != [] {
      var (rest, last) := (log[..|log| - 1], log[|log| - 1]);
      CandidatesSuffice(rest, name, test);
      if last.name == name {
        var before := Kept(rest, name);
        LastOfAppend(Without(before, SourceKey(last.source)), last, name, test);
        if !test(last) {
          DroppingIdle(before, SourceKey(last.source), name, test);
        }
      }
    }
  }

  // ---- the registry ----

  predicate Everything(e: Entry) { true }

  // What the registry holds under one name.
  predicate Filed(log: seq<Entry>, name: Text, kept: seq<Entry>, last: Entry) {
    kept == Kept(log, name) && LastOf(log, name, Everything) == Some(last)
  }

  lemma FiledAfter(log: seq<Entry>, e: Entry, name: Text, kept: seq<Entry>, last: Entry)
    requires Filed(log, name, kept, last) && e.name != name
    ensures Filed(log + [e], name, kept, last)
  {
    assert (log + [e])[..|log|] == log;
  }

  lemma FiledNow(log: seq<Entry>, e: Entry)
    ensures Filed(log + [e], e.name, Without(Kept(log, e.name), SourceKey(e.source)) + [e], e)
  {
    assert (log + [e])[..|log|] == log;
  }

  lemma NamesAfter(log: seq<Entry>, e: Entry)
    ensures Names(log + [e]) == if e.name in Names(log) then Names(log) else Names(log) + [e.name]
  {
    assert (log + [e])[..|log|] == log;
  }

  // Removes the first entry filed under key, by searching and splicing.
  method DropSource(es: seq<Entry>, key: Text) returns (r: seq<Entry>)
    ensures r == Without(es, key)
  {
    var i := 0;
    while i < |es| && SourceKey(es[i].source) != key
      invariant i <= |es| && Without(es, key) == es[..i] + Without(es[i..], key)
    {
      assert es[..i + 1] == es[..i] + [es[i]] && es[i..][1..] == es[i + 1..];
      i := i + 1;
    }
    if i == |es| {
      assert es[..i] + [] == es;
      return es;
    }
    assert es[i..][1..] == es[i + 1..];
    return es[..i] + es[i + 1..];
  }

  // The last active entry, by a search from the end.
  method FindLastActive(es: seq<Entry>, name: Text, site: Site) returns (r: Option<Entry>)
    requires forall i :: 0 <= i < |es| ==> es[i].name == name
    ensures r == LastOf(es, name, IsActive(site))
  {
    hide Active;
    var i := |es|;
    assert es[..|es|] == es;
    while i > 0
      invariant 0 <= i <= |es| && LastOf(es, name, IsActive(site)) == LastOf(es[..i], name, IsActive(site))
    {
      assert es[..i][..i - 1] == es[..i - 1] && es[..i][i - 1] == es[i - 1];
      if Active(es[i - 1].source, site) {
        return Some(es[i - 1]);
      }
      i := i - 1;
    }
    return None;
  }

  class SharedRegistry {
    var order: seq<Text>                      // the keys of the maps, in insertion order
    var candidates: map<Text, seq<Entry>>
    var definitions: map<Text, Entry>
    ghost var log: seq<Entry>                 // every registration since the last reset

    ghost predicate Valid()
      reads this
    {
      && order == Names(log)
      && candidates.Keys == definitions.Keys == (set name | name in order)
      && (forall name :: name in candidates ==> Filed(log, name, candidates[name], definitions[name]))
    }

    constructor (defaults: seq<Entry>)
      ensures Valid() && log == defaults
    {
      order, candidates, definitions, log := [], map[], map[], [];
      new;
      Reset(defaults);
    }

    method Store(e: Entry)
      requires Valid()
      modifies this
      ensures Valid() && log == old(log) + [e]
    {
      hide Names, Filed, Kept;
      var kept := if e.name in candidates then candidates[e.name] else [];
      CandidatesAreKept(e.name);
      var fewer := DropSource(kept, SourceKey(e.source));
      FiledNow(log, e);
      NamesAfter(log, e);
      forall name | name in candidates && name != e.name
        ensures Filed(log + [e], name, candidates[name], definitions[name])
      {
        FiledAfter(log, e, name, candidates[name], definitions[name]);
      }
      candidates := candidates[e.name := fewer + [e]];
      definitions := definitions[e.name := e];
      if e.name !in order {
        order := order + [e.name];
      }
      log := log + [e];
    }

    lemma CandidatesAreKept(name: Text)
      requires Valid()
      ensures (if name in candidates then candidates[name] else []) == Kept(log, name)
    {
      NamesAreLogged(log, name);
      if name !in candidates {
        KeptNothing(log, name);
      }
    }

    method Reset(defaults: seq<Entry>)
      modifies this
      ensures Valid() && log == defaults
    {
      order, candidates, definitions, log := [], map[], map[], [];
      var i := 0;
      while i < |defaults|
        invariant i <= |defaults| && Valid() && log == defaults[..i]
      {
        Store(defaults[i]);
        assert defaults[..i + 1] == defaults[..i] + [defaults[i]];
        i := i + 1;
      }
      assert defaults[..i] == defaults;
    }

    // The view without a site: the last registration of the type.
    method Get(name: Text) returns (r: Option<Entry>)
      requires Valid()
      ensures r == LastOf(log, name, Everything)
    {
      NamesAreLogged(log, name);
      if name !in definitions {
        NothingNamed(log, name, Everything);
        return None;
      }
      return Some(definitions[name]);
    }

    /** The lookup for a site is the last registration of the type whose contributor is active there. */
    method GetForActiveSources(name: Text, site: Site) returns (r: Option<Entry>)
      requires Valid()
      ensures r == LastOf(log, name, IsActive(site))
    {
      hide Kept, Active;
      ActiveIsBySource(site);
      CandidatesSuffice(log, name, IsActive(site));
      CandidatesAreKept(name);
      if name !in candidates {
        return None;
      }
      KeptIsDistinct(log, name);
      var kept := candidates[name];
      assert forall i :: 0 <= i < |kept| ==> kept[i] in kept;
      r := FindLastActive(kept, name, site);
    }
  }

  function IsActive(site: Site): Entry -> bool {
    (e: Entry) => Active(e.source, site)
  }

  lemma ActiveIsBySource(site: Site)
    ensures BySource(IsActive(site))
  {
    forall a: Entry, b: Entry | SourceKey(a.source) == SourceKey(b.source)
      ensures IsActive(site)(a) == IsActive(site)(b)
    {
      ActiveByKey(a.source, b.source, site);
    }
  }

  lemma {:induction false} NamesAreLogged(log: seq<Entry>, name: Text)
    ensures name in Names(log) <==> exists i :: 0 <= i < |log| && log[i].name == name
  {
    if log != [] {
      NamesAreLogged(log[..|log| - 1], name);
      assert forall i :: 0 <= i < |log| - 1 ==> log[..|log| - 1][i] == log[i];
    }
  }

  lemma {:induction false} NothingNamed(log: seq<Entry>, name: Text, test: Entry -> bool)
    requires forall i :: 0 <= i < |log| ==> log[i].name != name
    ensures LastOf(log, name, test) == None
  {
    if log != [] {
      NothingNamed(log[..|log| - 1], name, test);
    }
  }

  lemma {:induction false} KeptNothing(log: seq<Entry>, name: Text)
    requires forall i :: 0 <= i < |log| ==> log[i].name != name
    ensures Kept(log, name) == []
  {
    if log != [] {
      KeptNothing(log[..|log| - 1], name);
    }
  }
}
