/** The hand-written TOML scanner that looks for a server's entries in a Codex configuration. */
module TomlScan {
  import opened Common
  import opened Utf8
  import opened Ascii
  import opened TextSearch

  type Text = seq<Unit>

  // Where the managed block starts, and where its end marker starts.
  datatype Span = Span(start: nat, end: nat)

  datatype Outcome = Malformed | Conflict | Clear

  const QUOTE: Unit := '\"' as int
  const APOSTROPHE: Unit := '\'' as int
  const BACKSLASH: Unit := '\\' as int
  const NEWLINE: Unit := 10
  const RETURN: Unit := 13
  const HASH: Unit := '#' as int
  const DOT: Unit := '.' as int
  const EQUALS: Unit := '=' as int
  const OPEN: Unit := '[' as int
  const CLOSE: Unit := ']' as int
  const OPEN_TABLE: Unit := '{' as int
  const CLOSE_TABLE: Unit := '}' as int

  predicate Is(s: Text, i: nat, u: Unit) {
    i < |s| && s[i] == u
  }

  predicate Blank(u: Unit) { u == ' ' as int || u == 9 || u == RETURN }

  predicate Bare(u: Unit) {
    'A' as int <= u <= 'Z' as int || 'a' as int <= u <= 'z' as int || IsDigit(u) || u == '_' as int || u == '-' as int
  }

  // ---- runs ----

  function SkipBlank(s: Text, i: nat): (r: nat)
    ensures i <= r && (i <= |s| ==> r <= |s|)
    decreases |s| - i
  {
    if i < |s| && Blank(s[i]) then SkipBlank(s, i + 1) else i
  }

  function SkipBare(s: Text, i: nat): (r: nat)
    ensures i <= r && (i <= |s| ==> r <= |s|)
    decreases |s| - i
  {
    if i < |s| && Bare(s[i]) then SkipBare(s, i + 1) else i
  }

  function LineEnd(s: Text, i: nat): (r: nat)
    ensures i <= r && (i <= |s| ==> r <= |s|)
    ensures r < |s| ==> s[r] == NEWLINE
    decreases |s| - i
  {
    if i < |s| && s[i] != NEWLINE then LineEnd(s, i + 1) else i
  }

  // ---- strings ----

  predicate Triple(s: Text, i: nat, quote: Unit) {
    Is(s, i, quote) && Is(s, i + 1, quote) && Is(s, i + 2, quote)
  }

  // Whether the closing delimiter stands at j.
  predicate Closes(s: Text, j: nat, quote: Unit, multiline: bool) {
    if multiline then Triple(s, j, quote) else Is(s, j, quote)
  }

  function FindClose(s: Text, j: nat, quote: Unit, multiline: bool): (r: Option<nat>)
    ensures r.Some? ==> j <= r.value && Closes(s, r.value, quote, multiline)
    decreases |s| - j
  {
    if j >= |s| then None
    else if Closes(s, j, quote, multiline) then Some(j)
    else if !multiline && (s[j] == NEWLINE || s[j] == RETURN) then None
    else FindClose(s, if quote == QUOTE && s[j] == BACKSLASH then j + 2 else j + 1, quote, multiline)
  }

  // Up to two quotes may stand before the delimiter of a multiline string.
  function SkipQuotes(s: Text, j: nat, quote: Unit, most: nat): (r: nat)
    ensures j <= r && (j <= |s| ==> r <= |s|)
    decreases most
  {
    if most > 0 && Is(s, j, quote) then SkipQuotes(s, j + 1, quote, most - 1) else j
  }

  // The raw text of the string that starts at i, and the position after it.
  function ReadString(s: Text, i: nat): (r: Option<(Text, nat)>)
    requires i < |s|
    ensures r.Some? ==> i < r.value.1 <= |s|
  {
    var quote := s[i];
    var multiline := Triple(s, i, quote);
    var width := if multiline then 3 else 1;
    match FindClose(s, i + width, quote, multiline)
    case None => None
    case Some(j) =>
      var end := j + width;
      Some((s[i + width..j], if multiline then SkipQuotes(s, end, quote, 2) else end))
  }

  function HexValue(u: Unit): Option<nat> {
    if IsDigit(u) then Some(u - '0' as int)
    else if 'a' as int <= u <= 'f' as int then Some(u - 'a' as int + 10)
    else if 'A' as int <= u <= 'F' as int then Some(u - 'A' as int + 10)
    else None
  }

  function HexNumber(s: Text): Option<nat> {
    if s == [] then Some(0)
    else
      match (HexNumber(s[..|s| - 1]), HexValue(s[|s| - 1]))
      case (Some(high), Some(low)) => Some(16 * high + low)
      case _ => None
  }

  function SimpleEscape(u: Unit): Option<Unit> {
    if u == 'b' as int then Some(8)
    else if u == 't' as int then Some(9)
    else if u == 'n' as int then Some(10)
    else if u == 'f' as int then Some(12)
    else if u == 'r' as int then Some(13)
    else if u == QUOTE || u == BACKSLASH then Some(u)
    else None
  }

  // The escape whose letter stands first in s: its value and its length.
  function Escape(s: Text): (r: Option<(Text, nat)>)
    requires s != []
    ensures r.Some? ==> 1 <= r.value.1 <= |s|
  {
    var width := if s[0] == 'U' as int then 8 else if s[0] == 'u' as int then 4 else 0;
    if width > 0 then
      if |s| < 1 + width then None
      else
        match HexNumber(s[1..1 + width])
        case None => None
        case Some(code) => if Scalar(code) then Some((PointUnits(code), 1 + width)) else None
    else
      match SimpleEscape(s[0])
      case None => None
      case Some(u) => Some(([u], 1))
  }

  function Unescape(raw: Text): Option<Text> {
    if raw == [] then Some([])
    else if raw[0] == BACKSLASH && |raw| > 1 then
      match Escape(raw[1..])
      case None => None
      case Some((text, n)) =>
        (match Unescape(raw[1 + n..])
         case None => None
         case Some(rest) => Some(text + rest))
    else
      match Unescape(raw[1..])
      case None => None
      case Some(rest) => Some(raw[..1] + rest)
  }

  // ---- keys ----

  predicate AtQuote(s: Text, i: nat) { Is(s, i, QUOTE) || Is(s, i, APOSTROPHE) }

  function KeyPart(s: Text, i: nat): (r: Option<(Text, nat)>)
    ensures r.Some? ==> i < r.value.1 <= |s|
  {
    if AtQuote(s, i) then
      if Triple(s, i, s[i]) then None
      else
        match ReadString(s, i)
        case None => None
        case Some((raw, end)) =>
          if s[i] == APOSTROPHE then Some((raw, end))
          else
            match Unescape(raw)
            case None => None
            case Some(text) => Some((text, end))
    else
      var end := SkipBare(s, i);
      if end == i then None else Some((s[i..end], end))
  }

  function KeyPath(s: Text, i: nat): (r: Option<(seq<Text>, nat)>)
    ensures r.Some? ==> i < r.value.1 <= |s| && |r.value.0| >= 1
    decreases |s| - i
  {
    match KeyPart(s, SkipBlank(s, i))
    case None => None
    case Some((part, end)) =>
      var next := SkipBlank(s, end);
      if !Is(s, next, DOT) then Some(([part], next))
      else
        match KeyPath(s, next + 1)
        case None => None
        case Some((rest, after)) => Some(([part] + rest, after))
  }

  // ---- values ----

  // The position after the value whose rest starts at i, inside the given brackets.
  function SkipValue(s: Text, i: nat, brackets: seq<Unit>): (r: Option<nat>)
    requires i <= |s|
    ensures r.Some? ==> i <= r.value <= |s|
    decreases |s| - i
  {
    if i == |s| then
      if brackets == [] then Some(i) else None
    else if AtQuote(s, i) then
      match ReadString(s, i)
      case None => None
      case Some((_, end)) => SkipValue(s, end, brackets)
    else if s[i] == HASH then SkipValue(s, LineEnd(s, i + 1), brackets)
    else if s[i] == NEWLINE && brackets == [] then Some(i + 1)
    else if s[i] == OPEN || s[i] == OPEN_TABLE then SkipValue(s, i + 1, brackets + [s[i]])
    else if s[i] == CLOSE || s[i] == CLOSE_TABLE then
      if brackets != [] && brackets[|brackets| - 1] == (if s[i] == CLOSE then OPEN else OPEN_TABLE)
      then SkipValue(s, i + 1, brackets[..|brackets| - 1])
      else None
    else SkipValue(s, i + 1, brackets)
  }

  // ---- the scan ----

  const SERVERS: Text := Lit("mcp_servers")

  predicate Conflicts(path: seq<Text>, server: Text) {
    |path| >= 2 && path[0] == SERVERS && path[1] == server
  }

  predicate Managed(managed: Option<Span>, i: nat) {
    managed.Some? && managed.value.start < i < managed.value.end
  }

  predicate StartsBlock(managed: Option<Span>, i: nat) {
    managed.Some? && managed.value.start == i
  }

  // A `[table]` or `[[table]]` header at i.
  function Header(s: Text, i: nat): (r: Option<(seq<Text>, bool, nat)>)
    requires i < |s|
    ensures r.Some? ==> i < r.value.2 <= |s| && |r.value.0| >= 1
  {
    var arrayTable := Is(s, i + 1, OPEN);
    match KeyPath(s, if arrayTable then i + 2 else i + 1)
    case None => None
    case Some((path, end)) =>
      if !Is(s, end, CLOSE) || (arrayTable && !Is(s, end + 1, CLOSE)) then None
      else Some((path, arrayTable, if arrayTable then end + 2 else end + 1))
  }

  // What one turn of the main loop does. End: the text ran out; Fail: it is malformed; Hit: a conflict.
  datatype Turn = End(found: bool) | Fail | Hit | Next(at: nat, table: seq<Text>, found: bool)

  function Entry(s: Text, i: nat, server: Text, managed: Option<Span>, table: seq<Text>, found: bool): (r: Turn)
    requires i < |s|
    ensures !r.End? && (r.Next? ==> i < r.at <= |s| && r.found == found)
  {
    if s[i] == OPEN then
      match Header(s, i)
      case None => Fail
      case Some((path, arrayTable, end)) =>
        if !Managed(managed, i) && (Conflicts(path, server) || (arrayTable && path[0] == SERVERS)) then Hit
        else Next(end, path, found)
    else
      match KeyPath(s, i)
      case None => Fail
      case Some((key, end)) =>
        var path := table + key;
        if !Is(s, end, EQUALS) then Fail
        else if !Managed(managed, i) && (Conflicts(path, server) || path == [SERVERS]) then Hit
        else
          match SkipValue(s, end + 1, [])
          case None => Fail
          case Some(after) => Next(after, table, found)
  }

  function Step(s: Text, i: nat, server: Text, managed: Option<Span>, table: seq<Text>, found: bool): (r: Turn)
    requires i < |s|
    ensures r.Next? ==> i < r.at <= |s|
  {
    var first := SkipBlank(s, i);
    var comment := Is(s, first, HASH);
    var found' := found || (comment && StartsBlock(managed, first));
    var at := if comment then LineEnd(s, first) else first;
    if at == |s| then End(found')
    else if s[at] == NEWLINE then Next(at + 1, table, found')
    else Entry(s, at, server, managed, table, found')
  }

  function Scan(s: Text, i: nat, server: Text, managed: Option<Span>, table: seq<Text>, found: bool): Outcome
    requires i <= |s|
    decreases |s| - i
  {
    if i == |s| then Finish(managed, found)
    else
      match Step(s, i, server, managed, table, found)
      case End(found') => Finish(managed, found')
      case Fail => Malformed
      case Hit => Conflict
      case Next(at, table', found') => Scan(s, at, server, managed, table', found')
  }

  function Finish(managed: Option<Span>, found: bool): Outcome {
    if managed.Some? && !found then Malformed else Clear
  }

  lemma ScanNewline(t: Text, i: nat, server: Text, m: Option<Span>, table: seq<Text>, found: bool)
    requires Is(t, i, NEWLINE)
    ensures Scan(t, i, server, m, table, found) == Scan(t, i + 1, server, m, table, found)
  {
    hide Entry;
  }

  // ---- the same scanner as the source writes it ----

  method StringAt(s: Text, i: nat) returns (r: Option<(Text, nat)>)
    requires i < |s|
    ensures r == ReadString(s, i)
  {
    hide Triple;
    var quote := s[i];
    var multiline := Triple(s, i, quote);
    var width := if multiline then 3 else 1;
    var start := i + width;
    var offset := start;
    while offset < |s|
      invariant start <= offset
      invariant FindClose(s, start, quote, multiline) == FindClose(s, offset, quote, multiline)
    {
      if Closes(s, offset, quote, multiline) {
        var raw := s[start..offset];
        offset := offset + width;
        if multiline {
          var count := 0;
          ghost var after := offset;
          while count < 2 && Is(s, offset, quote)
            invariant count <= 2
            invariant SkipQuotes(s, after, quote, 2) == SkipQuotes(s, offset, quote, 2 - count)
          {
            offset := offset + 1;
            count := count + 1;
          }
        }
        return Some((raw, offset));
      }
      if !multiline && (s[offset] == NEWLINE || s[offset] == RETURN) {
        return None;
      }
      if quote == QUOTE && s[offset] == BACKSLASH {
        offset := offset + 1;
      }
      offset := offset + 1;
    }
    return None;
  }

  function AppendPath(path: seq<Text>, r: Option<(seq<Text>, nat)>): Option<(seq<Text>, nat)> {
    match r
    case None => None
    case Some((rest, end)) => Some((path + rest, end))
  }

  method KeyPathAt(s: Text, i: nat) returns (r: Option<(seq<Text>, nat)>)
    ensures r == KeyPath(s, i)
  {
    hide KeyPart, SkipBlank;
    var path: seq<Text> := [];
    var offset := i;
    assert KeyPath(s, i).Some? ==> [] + KeyPath(s, i).value.0 == KeyPath(s, i).value.0;
    while true
      invariant KeyPath(s, i) == AppendPath(path, KeyPath(s, offset))
      decreases |s| - offset
    {
      offset := SkipBlank(s, offset);
      var part := KeyPart(s, offset);
      if part.None? {
        return None;
      }
      ghost var before := path;
      path := path + [part.value.0];
      offset := SkipBlank(s, part.value.1);
      if !Is(s, offset, DOT) {
        return Some((path, offset));
      }
      offset := offset + 1;
      assert KeyPath(s, offset).Some? ==>
        before + ([part.value.0] + KeyPath(s, offset).value.0) == path + KeyPath(s, offset).value.0;
    }
  }

  // The value loop: the position after the value.
  method ValueAt(s: Text, i: nat) returns (r: Option<nat>)
    requires i <= |s|
    ensures r == SkipValue(s, i, [])
  {
    var offset := i;
    var brackets: seq<Unit> := [];
    while offset < |s|
      invariant offset <= |s|
      invariant SkipValue(s, i, []) == SkipValue(s, offset, brackets)
    {
      if AtQuote(s, offset) {
        var text := StringAt(s, offset);
        if text.None? {
          return None;
        }
        offset := text.value.1;
      } else if s[offset] == HASH {
        offset := LineEnd(s, offset + 1);
      } else if s[offset] == NEWLINE && brackets == [] {
        return Some(offset + 1);
      } else {
        if s[offset] == OPEN || s[offset] == OPEN_TABLE {
          brackets := brackets + [s[offset]];
        } else if s[offset] == CLOSE || s[offset] == CLOSE_TABLE {
          if brackets == [] || brackets[|brackets| - 1] != (if s[offset] == CLOSE then OPEN else OPEN_TABLE) {
            return None;
          }
          brackets := brackets[..|brackets| - 1];
        }
        offset := offset + 1;
      }
    }
    if brackets != [] {
      return None;
    }
    return Some(offset);
  }

  // One turn of the main loop.
  method EntryAt(s: Text, at: nat, server: Text, managed: Option<Span>, table: seq<Text>, found: bool)
    returns (r: Turn)
    requires at < |s|
    ensures r == Entry(s, at, server, managed, table, found)
  {
    hide KeyPath, SkipValue, Conflicts, Managed;
    if s[at] == OPEN {
      var arrayTable := Is(s, at + 1, OPEN);
      var path := KeyPathAt(s, if arrayTable then at + 2 else at + 1);
      if path.None? || !Is(s, path.value.1, CLOSE) || (arrayTable && !Is(s, path.value.1 + 1, CLOSE)) {
        return Fail;
      }
      var table' := path.value.0;
      if !Managed(managed, at) && (Conflicts(table', server) || (arrayTable && table'[0] == SERVERS)) {
        return Hit;
      }
      return Next(path.value.1 + (if arrayTable then 2 else 1), table', found);
    }
    var key := KeyPathAt(s, at);
    if key.None? || !Is(s, key.value.1, EQUALS) {
      return Fail;
    }
    var path := table + key.value.0;
    if !Managed(managed, at) && (Conflicts(path, server) || path == [SERVERS]) {
      return Hit;
    }
    var after := ValueAt(s, key.value.1 + 1);
    return if after.None? then Fail else Next(after.value, table, found);
  }

  method CodexHasUnmanagedEntry(s: Text, server: Text, managed: Option<Span>) returns (r: Outcome)
    ensures r == Scan(s, 0, server, managed, [], false)
  {
    hide Entry, Managed, Conflicts;
    var offset := 0;
    var table: seq<Text> := [];
    var found := false;
    while offset < |s|
      invariant offset <= |s|
      invariant Scan(s, 0, server, managed, [], false) == Scan(s, offset, server, managed, table, found)
    {
      var first := SkipBlank(s, offset);
      var at, found' := first, found;
      if Is(s, first, HASH) {
        found' := found || StartsBlock(managed, first);
        at := LineEnd(s, first);
      }
      if at == |s| {
        return Finish(managed, found');
      }
      if s[at] == NEWLINE {
        offset, found := at + 1, found';
      } else {
        var turn := EntryAt(s, at, server, managed, table, found');
        match turn {
          case Fail => return Malformed;
          case Hit => return Conflict;
          case Next(next, table', _) => offset, table, found := next, table', found';
        }
      }
    }
    return Finish(managed, found);
  }
}
